# The escrow protocol of easewaybill-api

A model of the money side of the EaseWaybill back end and proofs about it, in Dafny 4.11.
A seller creates an order, the buyer confirms and pays through Paystack, the money is held
in escrow while the goods travel, and it ends with the seller (release), or with the buyer
(refund). Seven services take part. None of them owns the protocol: each checks what it needs
and writes to the shared tables. The claims proved here are about all of them together, over
runs of any length, any number of orders and any interleaving.

`dafny verify dfyconfig.toml` checks the project.

## How it is built

- `Types`, `Tables`: the rows, and the database both as one value (`Store`) and as the object
  (`Database`) whose fields the services reassign. Amounts are whole kobo.
- `Escrow`, `Webhook`, `Orders`, `Payments`, `Disputes`, `Transfers`, `AutoRelease`: one module
  per service, each with a class whose methods follow the code branch by branch. Every method
  is tied to a verdict (which refusal, or success) and to the tables it leaves.
  `OrderStateMachine`, `Metadata` and `Pagination` model the pure parts.
- `Money`: the services compute naira in binary64. From a relative error bound per operation
  (section 4.3.1 of IEEE 754-2019) and the rounding of `toFixed` and `Math.round`
  (sections 21.1.3.3 and 21.3.2.28 of ECMA-262) this module shows that what reaches the database
  is integer kobo arithmetic, which is why the ledger is modelled in kobo.
- `EscrowEffects`, `OrderEffects`, `PaymentEffects`, `DisputeEffects`, `SummaryFigures`: what each command
  leaves in every field, exactly when it leaves anything, and what it answers, said without the services'
  own functions. The services are implementations; these are what they are held to.
- `Protocol`: nineteen kinds of command (calls, webhooks, the job, the clock) and runs of them.
- `OrderCases`, `Invariant`, `Safety`: what a command can do to one order, the invariant, and the
  exact condition under which a command keeps it. The other modules draw the consequences.
- `Findings`, `Witnesses`: what happens when a condition fails, with reachable starting states.
- `Races`, `Crossings`: overlapping releases, refunds and disputes, split between their guards and
  their transactions.

## The exact condition

The invariant is kept by a command if and only if the command is *orderly*
(`OrderCases.Orderly`, `Safety.InvKeptIffOrderly`). Three places in the code rely on a state that
they do not read, and these are the only exceptions:

1. `verifyByReference` writes PAID without reading the order's status. Orderly: the order is
   AWAITING_PAYMENT or PAID.
2. `resolve` commits without reading the order again. Orderly: the order is still DISPUTED, or
   already has the status that the decision gives it.
3. `transfer.success` turns a FAILED transfer into a SUCCESS although its retry may be active.
   Orderly: no transfer of that order is active.

A run is orderly when each of its commands is; a state is reachable when an orderly run leads to it
from the empty database. Nothing else is assumed about users, administrators, Paystack or the queue.
`Findings` shows what each exception costs: the first two settle the same hold twice.

Some promises fail in orderly runs too. For each there is the exact condition, and a reachable
state or an input where it fails:

- Goods travel unpaid when PAID is entered by hand or by a poll (`FundedShipping.NeverUnpaidIff`).
- A payout has no release row when its order was disputed (`Payouts.PayoutInLedgerIff`), and no money
  behind it at all when the order was never funded (`Payouts.CashOutWithinCashInIff`).
- The automatic release is lost when its job fires early, or the queue fails just after a webhook or a
  manual hold has funded the order (`Scheduling.JobIsThereIff`).
- A hold is stuck when its order ended by a change of status alone (`Progress.SettleableIffLive`).
- A refund's audit row is untrue when there is no dispute row (`Conservation.HistoryIsTruthful`).
- A fee row is negative for five totals below 10 kobo paid in whole kobo (`Money.NegativeFeeRowIff`), and
  for all of them with fractions of one (`Money.FractionalNegativeFeeRowIff`).

## What is taken as given

- Each service call is one step. In the code only the webhook's transactions are serializable, and
  the guards of hold, release, refund and the other calls are read before their transaction. `resolve`
  is split into its reading and its committing half, because its conditional update is made for that.
  `Races` splits the release, the refund and the raising of a dispute as well: `Crossings` says exactly
  when overlapping calls settle a hold both ways.
- The clock is a number that a `Tick` command moves forward; within one call it stands still.
- Paystack's answers are parameters: any status, reference, metadata, amount, currency and time. A
  null time is the start of 1970 to the polling path and a refusal to the webhook; where the code throws
  on an answer (a missing or invalid time while polling), nothing is written.
- The queue is a set of order ids. Jobs may fire at any time, any number of times, pending or not, so
  the 48 hours themselves play no part in any claim. Whether it accepts a job is a parameter.
- Unique keys are those of `easewaybill-api/prisma/schema.prisma`: ledger, payment and transfer
  references, and one dispute per order. A violation undoes the transaction it occurs in.
- Whether the float comparison accepts amounts one kobo apart, and where an exact half kobo is
  rounded, are parameters, so every claim holds for each outcome.
- Prices satisfy the bounds of `CreateOrderDto`, and a total that the Decimal(12, 2) column cannot
  hold makes the creation fail.
- The random references of payments and transfers are parameters; a used one is refused.

## Where the documentation and the code differ

The model follows the code.

- The comment on `cancelAutoRelease` (escrow.service.ts:736-742) says it is used when a dispute is
  raised. `raise` does not call it. The left-over job is harmless, which `Blocking` proves.
- The audit column is documented to hold DISPUTE_HOLD (schema.prisma:531). No service writes it.
- The orders controller documents "any to CANCELLED" for administrators. The table allows it only
  up to AWAITING_PAYMENT; from PAID the move leads to REFUNDED, and neither writes a ledger row.
- The state machine describes PAID to REFUNDED as triggering a refund (order-state-machine.ts:77-81).
  `updateStatus` only changes the status, so the hold stays unsettled for good (`Progress.SettleableIffLive`).
- The polling path promises an escrow hold after it has committed (payments.service.ts:323-324). That
  hold is always declined (`Payments.PollingHoldDeclines`); only the webhook repairs it.
- A comment on the listener says that only one transfer is ever created. A failed transfer that is
  reported successful after its retry makes two (`Payouts.SecondPayoutIffRevived`).

## Model

| member | source | states |
|---|---|---|
| `EscrowEffects.HoldExactly` | easewaybill-api/src/modules/escrow/escrow.service.ts:769-865 | a manual hold writes the hold row, PAID with HOLDING, the audit row and the job if and only if the request is positive, the order exists and awaits payment, has no hold, the reference is new and the amount passes; otherwise nothing changes |
| `EscrowEffects.HoldAnswer` | easewaybill-api/src/modules/escrow/escrow.service.ts:773-802 | each refusal of a manual hold is given exactly when its guard is the first to fail |
| `EscrowEffects.ReleaseExactly` | easewaybill-api/src/modules/escrow/escrow.service.ts:868-1007 | a release writes its fee and payout rows, completes the order, records who triggered it and drops the job unless the job itself did, if and only if the order is delivered or completed, neither released nor frozen, and funded |
| `EscrowEffects.ReleaseAnswer` | easewaybill-api/src/modules/escrow/escrow.service.ts:876-903 | each refusal of a release is given exactly when its guard is the first to fail |
| `EscrowEffects.JobExactly` | easewaybill-api/src/modules/escrow/escrow.processor.ts:25-62 | a job pays out the order if and only if it can be released, and is used up whenever the order exists |
| `EscrowEffects.AdminReleaseExactly` | easewaybill-api/src/modules/escrow/escrow.service.ts:1021-1054 | an administrator's release takes effect if and only if escrow is HOLDING, the order DELIVERED and funded, and no dispute open or under review |
| `EscrowEffects.AdminReleaseAnswer` | easewaybill-api/src/modules/escrow/escrow.service.ts:1025-1049 | each refusal of an administrator's release is given exactly when its guard is the first to fail |
| `EscrowEffects.RefundExactly` | easewaybill-api/src/modules/escrow/escrow.service.ts:1057-1149 | a refund of the whole hold takes effect if and only if the order is DISPUTED, neither refunded nor released, and funded |
| `EscrowEffects.RefundAnswer` | easewaybill-api/src/modules/escrow/escrow.service.ts:1061-1085 | each refusal of a refund is given exactly when its guard is the first to fail |
| `OrderEffects.CreateExactly` | easewaybill-api/src/modules/orders/orders.service.ts:120-183 | an order is made if and only if the request is acceptable, with every field it starts with: fee and rider share to the nearest kobo, the rest for the seller |
| `OrderEffects.MoveExactly` | easewaybill-api/src/modules/orders/orders.service.ts:341-442 | a status change takes effect if and only if the pair of statuses and the user's relation to the order, administrator before seller before buyer before rider, are on an explicit list; it sets the status and one timestamp, or is a release |
| `OrderEffects.MoveAnswer` | easewaybill-api/src/modules/orders/orders.service.ts:359-373 | each answer to a status change is given exactly when its condition holds: strangers are told the order does not exist, a move nobody may make is invalid, one that only others may make is forbidden |
| `OrderEffects.ActionsAre` | easewaybill-api/src/modules/orders/order-state-machine.ts:28-181 | every named action, and the one move each performs from each status |
| `OrderEffects.ConfirmExactly` | easewaybill-api/src/modules/orders/orders.service.ts:477-508 | the owner of the e-mail address becomes the buyer if and only if the order is PENDING_BUYER |
| `OrderEffects.ConfirmAnswer` | easewaybill-api/src/modules/orders/orders.service.ts:488-498 | each refusal of a confirmation is given exactly when its guard is the first to fail |
| `OrderEffects.AssignRiderExactly` | easewaybill-api/src/modules/orders/orders.service.ts:529-555 | the rider changes if and only if the order is SHIPPED and the rider active |
| `PaymentEffects.InitiateExactly` | easewaybill-api/src/modules/payments/payments.service.ts:65-122 | a PENDING payment of the order's total is opened if and only if the order awaits payment, the user is its buyer, no payment of it has succeeded, the gateway accepts and the reference is new |
| `PaymentEffects.InitiateAnswer` | easewaybill-api/src/modules/payments/payments.service.ts:65-108 | each refusal of a payment is given exactly when its guard is the first to fail |
| `PaymentEffects.VerifyExactly` | easewaybill-api/src/modules/payments/payments.service.ts:255-345 | a poll changes the tables only when a recorded success has an order still awaiting payment, or when Paystack reports success, with a date or null, for an open payment; every field it leaves |
| `PaymentEffects.VerifyAnswer` | easewaybill-api/src/modules/payments/payments.service.ts:255-355 | each answer of a poll is given exactly when its condition holds |
| `PaymentEffects.GenuineChargeExactly` | easewaybill-api/src/modules/payments/webhook.service.ts:290-507 | what a delivery that Paystack confirms leaves: a record, or record, order, hold, audit row and job, or nothing when its hold reference is used |
| `PaymentEffects.OtherChargeChangesNothing` | easewaybill-api/src/modules/payments/webhook.service.ts:138-225 | a delivery that is not confirmed, for any order, leaves nothing |
| `PaymentEffects.ChangesOnlyIfGenuine` | easewaybill-api/src/modules/payments/webhook.service.ts:138-225 | a charge.success that changes any table is verified as successful, of this reference, positive, in naira, dated, and for an existing order that both sets of metadata name |
| `PaymentEffects.HoldWrittenIff` | easewaybill-api/src/modules/payments/webhook.service.ts:290-442 | a delivery writes a hold if and only if it is confirmed, the amount passes, the order has no hold and is AWAITING_PAYMENT or PAID with open escrow, and the hold reference is free |
| `PaymentEffects.ChargeAnswer` | easewaybill-api/src/modules/payments/webhook.service.ts:138-491 | whatever a delivery comes to, the reason given is true of it, the reported owner, statuses and whether it repeats the same payment included |
| `PaymentEffects.ChargeFailedExactly` | easewaybill-api/src/modules/payments/webhook.service.ts:526-540 | a failure marks a record FAILED if and only if it exists and has not succeeded |
| `DisputeEffects.RaiseExactly` | easewaybill-api/src/modules/disputes/disputes.service.ts:52-124 | a dispute is raised if and only if the user is the buyer, the order DELIVERED, for at most 72 hours, and without a dispute; every field it leaves |
| `DisputeEffects.RaiseAnswer` | easewaybill-api/src/modules/disputes/disputes.service.ts:69-92 | each refusal of a dispute is given exactly when its guard is the first to fail |
| `DisputeEffects.ResolveReadExactly` | easewaybill-api/src/modules/disputes/disputes.service.ts:161-199 | a decision gets under way only for an administrator and a disputed order whose dispute is not resolved |
| `DisputeEffects.ResolveReadAnswer` | easewaybill-api/src/modules/disputes/disputes.service.ts:161-197 | each refusal of a decision is given exactly when its guard is the first to fail |
| `DisputeEffects.ResolveCommitExactly` | easewaybill-api/src/modules/disputes/disputes.service.ts:201-250 | a decision under way is committed if and only if the dispute is OPEN, and what it leaves for either side; no ledger or audit row |
| `DisputeEffects.TransferExactly` | easewaybill-api/src/modules/payments/transfer.service.ts:350-430 | a payout of sellerPayout is opened, PENDING, if and only if the order is COMPLETED and RELEASED, has no pending or paid transfer, somebody can be paid and the reference is new |
| `DisputeEffects.TransferAnswer` | easewaybill-api/src/modules/payments/transfer.service.ts:350-391 | each refusal of a payout is given exactly when its guard is the first to fail |
| `DisputeEffects.TransferEventExactly` | easewaybill-api/src/modules/payments/transfer.service.ts:528-599 | Paystack's word sets the state of the reference's record, from whatever it was, and nothing else |
| `DisputeEffects.UnknownTransferChangesNothing` | easewaybill-api/src/modules/payments/transfer.service.ts:535-589 | without a record of the reference it sets nothing |
| `SummaryFigures.EachFigure` | easewaybill-api/src/modules/escrow/escrow.service.ts:1179-1217 | each figure on its own, in every reachable state and over all orders: held the holds, released the payouts of released orders, fees what their holds exceed those by, refunded the holds of refunded orders |
| `Metadata.ExtractedIs` | easewaybill-api/src/modules/payments/webhook.service.ts:28-60 | the top-level field if it has any text, else the first custom field called order_id that has any, else none |
| `Metadata.SpacesAre` | easewaybill-api/src/modules/payments/webhook.service.ts:35-36 | exactly which characters count as white space, by number |
| `Escrow.EscrowService.HoldFunds` | easewaybill-api/src/modules/escrow/escrow.service.ts:769-865 | the verdict is the first guard that fails, and on success exactly one hold row, one audit row, PAID with HOLDING, and the job; when the queue fails after the commit, the same without the job, and the call fails |
| `Escrow.EscrowService.ReleaseFunds` | easewaybill-api/src/modules/escrow/escrow.service.ts:868-1014 | refusals in the code's order; a release appends the fee row and then the payout row, completes the order, writes the audit row, and cancels the job unless the job itself triggered it |
| `Escrow.EscrowService.AdminRelease` | easewaybill-api/src/modules/escrow/escrow.service.ts:1021-1054 | the four manual guards (HOLDING, DELIVERED, no active dispute, order exists), then the shared release |
| `Escrow.EscrowService.RefundFunds` | easewaybill-api/src/modules/escrow/escrow.service.ts:1057-1149 | refusals in the code's order; a refund appends one row for the whole hold, refunds the order and cancels the job |
| `Escrow.EscrowService.ScheduleAutoRelease` | easewaybill-api/src/modules/escrow/escrow.service.ts:720-734 | adds the order's job, and a second call adds nothing; a failing queue changes nothing and is reported |
| `Escrow.EscrowService.CancelAutoRelease` | easewaybill-api/src/modules/escrow/escrow.service.ts:743-761 | the order's job is gone, and nothing else changed |
| `Webhook.WebhookService.HandleChargeSuccess` | easewaybill-api/src/modules/payments/webhook.service.ts:136-522 | every check of a delivery in order, and the exact tables after each of its outcomes |
| `Webhook.WebhookService.RecordMismatch` | easewaybill-api/src/modules/payments/webhook.service.ts:229-286 | a wrong amount is recorded as a success for reconciliation and never funds |
| `Webhook.WebhookService.FundOrder` | easewaybill-api/src/modules/payments/webhook.service.ts:290-453 | the funding transaction: a foreign reference writes nothing, an existing hold or an ineligible order keeps only the record, a used hold reference undoes the record |
| `Webhook.WebhookService.CreateHold` | easewaybill-api/src/modules/payments/webhook.service.ts:390-442 | order, hold row and audit row are written together, PAID orders keeping their payment time |
| `Webhook.WebhookService.HandleChargeFailed` | easewaybill-api/src/modules/payments/webhook.service.ts:526-540 | an existing record that is not a success becomes FAILED, and nothing else happens |
| `Metadata.ExtractOrderId` | easewaybill-api/src/modules/payments/webhook.service.ts:28-60 | the early-return loop finds the trimmed orderId, or else the first custom field that names an order |
| `Metadata.FirstNamed` | easewaybill-api/src/modules/payments/webhook.service.ts:43-59 | none if no field names an order, otherwise the trimmed value of the first one that does |
| `Metadata.TrimCuts` | easewaybill-api/src/modules/payments/webhook.service.ts:35-36 | the trimmed text is a contiguous part of the text with nothing but white space around it |
| `Metadata.MetadataRoundTrip` | easewaybill-api/src/modules/payments/paystack.service.ts:63-72 | the metadata a payment is opened with leads back to its order, with or without the top-level field |
| `Orders.OrdersService.Create` | easewaybill-api/src/modules/orders/orders.service.ts:104-183 | a new order is PENDING_BUYER with escrow PENDING and the split amounts; unacceptable prices, an inactive seller or bad images change nothing |
| `Orders.OrdersService.UpdateStatus` | easewaybill-api/src/modules/orders/orders.service.ts:341-474 | party check, transition check for the contextual role, COMPLETED through escrow when HOLDING and without it otherwise, plain move for the rest |
| `Orders.OrdersService.ConfirmByBuyer` | easewaybill-api/src/modules/orders/orders.service.ts:477-521 | a PENDING_BUYER order addressed to this email, whatever the case of its letters, gets its buyer and AWAITING_PAYMENT |
| `Orders.OrdersService.AssignRider` | easewaybill-api/src/modules/orders/orders.service.ts:524-560 | only a SHIPPED order gets a rider, only an active one, and nothing else changes |
| `Payments.PaymentsService.InitiatePayment` | easewaybill-api/src/modules/payments/payments.service.ts:49-137 | one PENDING record for the order's total, only for AWAITING_PAYMENT, the right buyer and no earlier success, and only if the gateway call succeeds |
| `Payments.PaymentsService.VerifyByReference` | easewaybill-api/src/modules/payments/payments.service.ts:245-356 | the repair of a recorded success, and otherwise record and order written in one step, a null payment time as 1970, followed by the attempted hold |
| `Payments.PollingHoldDeclines` | easewaybill-api/src/modules/payments/payments.service.ts:323-344 | the hold that polling attempts is always declined because polling has just written PAID, so polling leaves only the record and the status |
| `Disputes.DisputesService.Raise` | easewaybill-api/src/modules/disputes/disputes.service.ts:52-154 | buyer, status, delivery time, 72-hour window and uniqueness, then dispute, DISPUTED and the RAISED event together |
| `Disputes.DisputesService.ResolveRead` | easewaybill-api/src/modules/disputes/disputes.service.ts:161-199 | the reads of a resolve call, in order |
| `Disputes.DisputesService.ResolveCommit` | easewaybill-api/src/modules/disputes/disputes.service.ts:201-250 | the conditional update is the lock: it commits if and only if the dispute is still OPEN, whatever the order has become |
| `Transfers.TransferService.InitiateTransfer` | easewaybill-api/src/modules/payments/transfer.service.ts:336-438 | COMPLETED, RELEASED and no active transfer, then one PENDING transfer of sellerPayout |
| `Transfers.TransferService.HandleTransferSuccess` | easewaybill-api/src/modules/payments/transfer.service.ts:528-572 | the record of the reference becomes SUCCESS from any state |
| `Transfers.TransferService.HandleTransferFailed` | easewaybill-api/src/modules/payments/transfer.service.ts:575-617 | the record of the reference becomes FAILED from any state |
| `Transfers.TransferService.OnEscrowReleased` | easewaybill-api/src/modules/payments/transfer.listener.ts:13-48 | the listener does what a direct transfer call does and swallows every failure |
| `AutoRelease.EscrowProcessor.HandleAutoRelease` | easewaybill-api/src/modules/escrow/escrow.processor.ts:25-62 | releases, or skips when the message contains one of seven phrases, or leaves the job to be retried |
| `Money.KoboRoundTrip` | easewaybill-api/src/modules/payments/payments.service.ts:97-98 | kobo to naira and back through Math.round is the identity up to 10^13 kobo, whatever each operation returns within its error bound |
| `Money.SumIsExact` | easewaybill-api/src/modules/orders/orders.service.ts:145 | the rounded float sum is the kobo sum |
| `Money.DifferenceIsExact` | easewaybill-api/src/modules/escrow/escrow.service.ts:906-908 | the rounded float difference is the kobo difference, whichever operand is larger |
| `Money.CreateRefinesKobo` | easewaybill-api/src/modules/orders/orders.service.ts:143-148 | all four amounts of a new order are the integer ones, for every admissible result of every float operation |
| `Money.FeeOf` | easewaybill-api/src/modules/orders/orders.service.ts:146 | five percent to the nearest kobo: within 10 kobo after multiplication by twenty, and between zero and the total |
| `Money.RiderShareOf` | easewaybill-api/src/modules/orders/orders.service.ts:148 | nine tenths to the nearest kobo, never more than the delivery fee |
| `Money.AmountCheckRefinesKobo` | easewaybill-api/src/modules/payments/webhook.service.ts:229 | the float comparison accepts equal amounts and rejects two kobo or more; only a difference of one kobo is open |
| `Money.OneKoboGoesEitherWay` | easewaybill-api/src/modules/payments/webhook.service.ts:229 | two concrete pairs one kobo apart, one accepted and one rejected by the float comparison |
| `Money.FeeRowBounds` | easewaybill-api/src/modules/escrow/escrow.service.ts:906-920 | the fee row at release is within one kobo of the agreed fee, and not negative from 11 kobo on |
| `Money.NegativeFeeRowIff` | easewaybill-api/src/modules/escrow/escrow.service.ts:906-920 | an accepted payment in whole kobo within one of the total leaves a negative fee row if and only if it is one kobo short of a total of 2, 3, 6, 8 or 9 kobo |
| `Money.FractionalNegativeFeeRowIff` | easewaybill-api/src/modules/escrow/escrow.service.ts:797-811 | with fractions of a kobo, which a manual hold may ask for, some accepted hold leaves one if and only if the fee rounds to nothing, that is for totals up to 9 and possibly 10 |
| `Money.OneKoboShort` | easewaybill-api/src/modules/payments/webhook.service.ts:229 | with the real binary64 values, a payment one kobo short of 2 to 10 kobo is refused for 4, 5, 7 and 10 and accepted otherwise |
| `Money.FeeRowCanBeNegative` | easewaybill-api/src/modules/escrow/escrow.service.ts:906-920 | an order of 2 kobo paid with 1, in floats from end to end: accepted, fee 0, payout 2, fee row minus one kobo, whatever the operations return |
| `OrderStateMachine.ValidateAgreesWithActions` | easewaybill-api/src/modules/orders/order-state-machine.ts:131-181 | the lookup by target and the lookup by action agree: a role may make a move if and only if an action open to it performs that move |
| `OrderStateMachine.EdgesRaiseRank` | easewaybill-api/src/modules/orders/order-state-machine.ts:28-129 | every edge of the table strictly raises a rank, so the table has no cycle |
| `OrderStateMachine.AllowedFollowsEdge` | easewaybill-api/src/modules/orders/order-state-machine.ts:131-155 | a transition that validates is an edge of the table |
| `OrderCases.OrderlyCommandsRefine` | easewaybill-api/src/modules/escrow/escrow.service.ts:769-1149 | every orderly command of any service does one of ten moves, or nothing, to each order |
| `Invariant.CaseStepKeeps` | easewaybill-api/src/modules/escrow/escrow.service.ts:769-1149 | each of those moves keeps the invariant that ties amounts, ledger rows, escrow status, dispute, status, timestamps and job together |
| `Safety.InvKeptIffOrderly` | easewaybill-api/src/modules/payments/payments.service.ts:295-317 | a command keeps the whole invariant if and only if it is orderly; the three unread states are the only ways out |
| `Safety.InvAlongRun` | easewaybill-api/src/modules/escrow/escrow.service.ts:769-1149 | the invariant holds after every orderly run |
| `Safety.LatePollBreaksInv` | easewaybill-api/src/modules/payments/payments.service.ts:295-317 | a poll that confirms a payment of an order past PAID always leaves the invariant |
| `Safety.StaleCommitBreaksInv` | easewaybill-api/src/modules/disputes/disputes.service.ts:201-238 | a dispute decision committed for an order that has moved elsewhere always leaves the invariant |
| `Safety.TransferStateKeeps` | easewaybill-api/src/modules/payments/transfer.service.ts:540-553 | a transfer event keeps the transfer invariant if and only if it does not make a second active transfer |
| `Safety.LedgerKept` | easewaybill-api/src/modules/escrow/escrow.service.ts:914-989 | from a state satisfying the invariant, no command, orderly or not, writes a row of the wrong shape or reuses a reference, so the unique index never trips |
| `Conservation.EveryHoldSettledOnce` | easewaybill-api/src/modules/escrow/escrow.service.ts:769-1149 | per order and over every orderly run: at most one hold, one settlement, a fee row exactly with a release, outflow in the ledger nothing or exactly the hold; release rows mean COMPLETED and RELEASED, refund rows REFUNDED and REFUNDED |
| `Conservation.SummaryBalances` | easewaybill-api/src/modules/escrow/escrow.service.ts:1178-1224 | held minus released, refunded and fees is the sum of the unsettled holds, and totalOrders is the number of orders ever funded, over any orders and interleaving |
| `LedgerIdentity.SummaryIdentity` | easewaybill-api/src/modules/escrow/escrow.service.ts:1178-1217 | the same identity for any ledger whose orders are settled at most once, by taking out one order at a time |
| `Conservation.AuditRebuildsLedger` | easewaybill-api/src/modules/escrow/escrow.service.ts:828-839 | after any run, orderly or not, replaying the audit log rebuilds the ledger exactly, and each order's entries rebuild its rows |
| `Conservation.HistoryIsTruthful` | easewaybill-api/src/modules/escrow/escrow.service.ts:828-839 | every audit row's constant statuses are the real ones before and after the step, except that a refund without a dispute row claims DISPUTED while escrow was HOLDING |
| `Conservation.NeverCompletedWhileHolding` | easewaybill-api/src/modules/escrow/escrow.service.ts:876-903 | COMPLETED with HOLDING is unreachable, so a release always starts from DELIVERED with HOLDING |
| `Convergence.PollingAndWebhookConverge` | easewaybill-api/src/modules/payments/webhook.service.ts:371-453 | every mixture of polls and deliveries of the matching payment with at least one delivery ends in one and the same table contents; polls alone never fund |
| `Convergence.NullTimePartsThem` | easewaybill-api/src/modules/payments/payments.service.ts:295-316 | a successful answer whose payment time is null is the exception: polling marks the order PAID as of 1970, and its delivery changes nothing |
| `Delivery.FundedOnceForAll` | easewaybill-api/src/modules/payments/webhook.service.ts:348-369 | once an order has a hold, any number of further deliveries for it change nothing but payment records |
| `Delivery.ForeignReferenceChangesNothing` | easewaybill-api/src/modules/payments/webhook.service.ts:294-304 | a delivery whose reference belongs to another order changes nothing at all |
| `Delivery.RecordIsSettled` | easewaybill-api/src/modules/payments/webhook.service.ts:306-328 | over any run, orderly or not, a reference keeps its order and a recorded success stays a success |
| `Delivery.DeliveryOrderDoesNotMatter` | easewaybill-api/src/modules/payments/webhook.service.ts:530-540 | any permutation of the same failed and accepted successful events gives the record the same status, and the same amount and time as well when Paystack's answers agree; a success leaves exactly the last answer |
| `PaymentRecords.RecordsMove` | easewaybill-api/src/modules/payments/payments.service.ts:87-122 | a record is opened only for an AWAITING_PAYMENT order, fails only when not a success, and otherwise only succeeds |
| `Lifecycle.StatusFollowsTable` | easewaybill-api/src/modules/orders/order-state-machine.ts:28-129 | although most services never consult the table, every orderly status change of any service is one of its edges |
| `Lifecycle.PollKeepsRankIffEarly` | easewaybill-api/src/modules/payments/payments.service.ts:310-316 | a confirming poll does not set an order back if and only if the order is AWAITING_PAYMENT or PAID |
| `Lifecycle.AtMostSevenChanges` | easewaybill-api/src/modules/orders/order-state-machine.ts:28-129 | in a whole history an order changes status at most seven times |
| `Lifecycle.TerminalAbsorbs` | easewaybill-api/src/modules/orders/order-state-machine.ts:126-128 | after COMPLETED, CANCELLED or REFUNDED no orderly run changes the status or adds a ledger row |
| `Lifecycle.JourneyIsOrdered` | easewaybill-api/src/modules/orders/orders.service.ts:586-601 | shipped, picked up, delivered, disputed, completed and refunded times are in that order, and the delivery time is there |
| `Lifecycle.DeliveryStampIsThere` | easewaybill-api/src/modules/disputes/disputes.service.ts:395-400 | the rejection for a missing delivery time can never be given |
| `Progress.SettleableIffLive` | easewaybill-api/src/modules/orders/order-state-machine.ts:71-124 | a held balance can be brought to zero by orderly commands if and only if the order is PAID, SHIPPED, IN_TRANSIT, DELIVERED or DISPUTED, and then by at most four |
| `Progress.SettlingRunSettles` | easewaybill-api/src/modules/orders/orders.service.ts:383-395 | the concrete run: carry the order on and complete it, or refund it when disputed |
| `FundedShipping.FundedKeptIffPaidByMoney` | easewaybill-api/src/modules/payments/webhook.service.ts:371-425 | one orderly command keeps a funded order funded if and only if it does not enter PAID from AWAITING_PAYMENT by an administrator's hand or by a poll |
| `FundedShipping.NeverUnpaidIff` | easewaybill-api/src/modules/payments/webhook.service.ts:371-425 | over whole orderly histories goods are paid for in every state if and only if no command enters PAID that way |
| `FundedShipping.GoodsNeverShipUnpaid` | easewaybill-api/src/modules/payments/webhook.service.ts:371-425 | what being funded means at the end of such a history: on its way exactly one hold within a kobo of the price in escrow, and from 11 kobo on a payout due never exceeds it |
| `FundedShipping.DeliveredCompletesByRelease` | easewaybill-api/src/modules/orders/orders.service.ts:383-395 | in such runs DELIVERED to COMPLETED always writes the release row for sellerPayout |
| `Scheduling.ScheduledIffNotSpent` | easewaybill-api/src/modules/escrow/escrow.service.ts:854-856 | one orderly command keeps the job of a held, undisputed order in the queue if and only if it is not an early firing, nor a webhook or a manual hold that funds the order while the queue fails |
| `Scheduling.JobIsThereIff` | easewaybill-api/src/modules/payments/webhook.service.ts:497-507 | over whole orderly histories the job is there whenever it is due if and only if no command is one of those three |
| `Scheduling.DeliveredOrderIsPaidOutByItsJob` | easewaybill-api/src/modules/escrow/escrow.processor.ts:25-40 | in such histories, firing the job on the delivered order pays the seller and the worker reports success |
| `Payouts.PayoutsAreBounded` | easewaybill-api/src/modules/payments/transfer.service.ts:354-384 | at most one pending or paid transfer, in total at most sellerPayout, and any transfer means COMPLETED, RELEASED and not refunded |
| `Payouts.PayoutInLedgerIff` | easewaybill-api/src/modules/disputes/disputes.service.ts:225-238 | an order whose payout is due has its FULL_RELEASE row, for sellerPayout, if and only if no dispute was ever raised; otherwise it was decided for the seller and has none |
| `Payouts.TransferInLedgerIff` | easewaybill-api/src/modules/payments/transfer.service.ts:386-430 | each transfer is covered by a release row of exactly its amount if and only if its order was never disputed |
| `Payouts.CashOutWithinCashInIff` | easewaybill-api/src/modules/payments/transfer.service.ts:354-430 | active transfers and refunds together stay within the hold if and only if the order has a ledger row or no active transfer, from 11 kobo on |
| `Payouts.RepeatedEventsPayOnce` | easewaybill-api/src/modules/payments/transfer.listener.ts:26-36 | after one transfer any number of further release events or retries changes nothing |
| `Payouts.SecondPayoutIffRevived` | easewaybill-api/src/modules/payments/transfer.service.ts:540-553 | the only command that makes two active transfers is a transfer.success for a failed reference whose retry is active |
| `Blocking.DisputeBlocksRelease` | easewaybill-api/src/modules/escrow/escrow.service.ts:876-903 | while an order is DISPUTED no buyer, admin or job appends a ledger or audit row, in any state of the tables |
| `Blocking.DisputeBlocksAttempts` | easewaybill-api/src/modules/escrow/escrow.service.ts:876-903 | no sequence of release attempts gets round the dispute |
| `Blocking.WorkerClassifiesRefusals` | easewaybill-api/src/modules/escrow/escrow.processor.ts:45-60 | every refusal on an existing order is a skip, for every order id; a missing order is retried |
| `Blocking.EarlyJobIsSpent` | easewaybill-api/src/modules/escrow/escrow.processor.ts:54-57 | a job that fires before delivery is used up, and nothing that follows schedules the order's release again |
| `Resolution.OneResolutionWins` | easewaybill-api/src/modules/disputes/disputes.service.ts:201-250 | for any interleaving of any number of resolve calls at most one commit succeeds, one RESOLVED event is written, and order and dispute end as the winner decided |
| `DisputeLog.EventsTellTheDispute` | easewaybill-api/src/modules/disputes/disputes.service.ts:84-250 | after any run, orderly or not, an order's dispute events are exactly what its dispute row says: RAISED once, and RESOLVED once with the row's administrator and decision if and only if it is resolved |
| `Authority.MoneyMovesOnlyByRight` | easewaybill-api/src/modules/orders/orders.service.ts:363-410 | in any state, an order's ledger rows change only by a payment for that order, a release by its buyer, an administrator or its job, or a refund while it is disputed |
| `Authority.CompletedBy` | easewaybill-api/src/modules/orders/orders.service.ts:607-613 | a delivered order can be completed by an administrator, or by the buyer unless the same account is the seller, and by nobody else |
| `Resolution.FirstCommitWins` | easewaybill-api/src/modules/disputes/disputes.service.ts:205-219 | the first commit after a successful read wins, whatever follows |
| `Pagination.WalkIsListIffIdsFollowTime` | easewaybill-api/src/modules/orders/orders.service.ts:258-310 | following the cursor gives exactly the newest-first list for every page size if and only if ids sort the same way as creation times and orders of the same moment are listed by id |
| `Pagination.PageExactly` | easewaybill-api/src/common/dto/pagination.dto.ts:30-51 | a page is the first limit rows the cursor keeps; another is promised if and only if there were that many, and the next cursor is then the last id shown |
| `Pagination.NextPageIsShorter` | easewaybill-api/src/modules/orders/orders.service.ts:262-309 | a page that promises another one always leaves strictly fewer rows, so every walk ends, whatever the ids |
| `Findings.LatePollPaysTwice` | easewaybill-api/src/modules/payments/payments.service.ts:295-317 | from any paid-out order, a late poll, a second delivery, a dispute and a refund settle its hold a second time |
| `Findings.StaleCommitPaysTwice` | easewaybill-api/src/modules/disputes/disputes.service.ts:201-238 | a refund between the reading and the committing of a decision for the seller pays the buyer back and opens the seller's payout as well |
| `Findings.UnfundedPayout` | easewaybill-api/src/modules/disputes/disputes.service.ts:225-238 | from PAID, delivery, dispute, decision for the seller and payout write no ledger row, so an order marked PAID by hand is paid out of nothing; PayoutInLedgerIff gives the exact condition |
| `Witnesses.LatePollIsPossible` | easewaybill-api/src/modules/payments/payments.service.ts:88-122 | a reachable state with the late poll's hypotheses |
| `Witnesses.StaleCommitIsPossible` | easewaybill-api/src/modules/disputes/disputes.service.ts:165-199 | a reachable state with the stale decision's hypotheses |
| `Witnesses.RevivalIsPossible` | easewaybill-api/src/modules/payments/transfer.service.ts:371-384 | a reachable state from which a late transfer.success leaves two active transfers |
| `Witnesses.UnfundedIsReachable` | easewaybill-api/src/modules/orders/order-state-machine.ts:58-63 | an order can be PAID without any ledger row |
| `Witnesses.UnrecordedPayoutIsPossible` | easewaybill-api/src/modules/disputes/disputes.service.ts:225-238 | a reachable state with an active payout, no release row, and the hold still counted as open by the summary |
| `Witnesses.StuckHoldIsPossible` | easewaybill-api/src/modules/orders/order-state-machine.ts:77-81 | a reachable order, cancelled by an administrator after payment, whose hold no orderly run settles |
| `Witnesses.FalseAuditIsPossible` | easewaybill-api/src/modules/escrow/escrow.service.ts:1117-1127 | a reachable refund whose audit row says DISPUTED while escrow was HOLDING |
| `Witnesses.LostJobIsPossible` | easewaybill-api/src/modules/escrow/escrow.processor.ts:44-57 | a reachable paid order whose job is lost for good by firing early |
| `Witnesses.UnscheduledHoldIsPossible` | easewaybill-api/src/modules/escrow/escrow.service.ts:854-856 | a reachable order, funded by a manual hold whose scheduling failed, that is PAID and HOLDING without a job |
| `Races.UndisturbedReleaseIsAtomic` | easewaybill-api/src/modules/escrow/escrow.service.ts:874-989 | reading and writing of a release, with nothing in between, are the atomic release of the other modules |
| `Races.UndisturbedRefundIsAtomic` | easewaybill-api/src/modules/escrow/escrow.service.ts:1058-1140 | the same for a refund |
| `Races.UndisturbedRaiseIsAtomic` | easewaybill-api/src/modules/disputes/disputes.service.ts:57-124 | the same for raising a dispute |
| `Races.OneSettlementPerReadingTime` | easewaybill-api/src/modules/escrow/escrow.service.ts:898-989 | any interleaving of any number of releases, refunds and disputes writes one FULL_RELEASE and one PLATFORM_FEE row, or one REFUND row, for each distinct millisecond in which a release, or a refund, that gets to write read the clock; each settles the whole hold |
| `Crossings.BothSettlementsIffCross` | easewaybill-api/src/modules/escrow/escrow.service.ts:1080-1140 | in any such interleaving a hold is both released and refunded if and only if one of them is written while a call that had passed its guards before goes on to write the other, or to raise the dispute that a refund relies on |
| `Crossings.OvertakenReleaseSettlesTwice` | easewaybill-api/src/modules/escrow/escrow.service.ts:876-989 | a release that has read DELIVERED and is overtaken by a dispute and its refund writes both settlements |
| `Crossings.TwoCallsReleaseTwice` | easewaybill-api/src/modules/escrow/escrow.service.ts:898-989 | two releases that both read before either writes write two FULL_RELEASE rows, unless they read in the same millisecond |

## Left out

- Interleavings inside a call other than those of `resolve` calls with anything, and of releases, refunds and disputes of one order with each other: the remaining checks made outside a transaction, such as those of two manual holds, count as atomic.
- Escrow.EscrowService.HoldFunds: amounts are the whole kobo that are stored, although the request body admits fractions, which can be stored as 0; `Money.FractionalNegativeFeeRowIff` says what they add to the fee row.
- Escrow.EscrowService.CancelAutoRelease: does not model that removing a job the worker has locked fails silently; the job may fire in the model whether or not it is pending.
- Escrow.EscrowService.ScheduleAutoRelease: does not model that the queue may ignore a job whose id it still remembers as completed, nor the three attempts and their delays.
- Orders.OrdersService.Create: whether the seller is active and the images are valid are parameters; items, addresses and codes are left out, as no decision here depends on them.
- Orders.OrdersService.ConfirmByBuyer: case is ignored for the letters of ASCII only.
- Transfers.TransferService.InitiateTransfer: the recipient cache and the Paystack call are one parameter that says whether a recipient is found; the cache is never refreshed after a profile edit, so there is nothing to claim about it.
- Blocking.WorkerClassifiesRefusals: for a missing order it needs an id without spaces and upper-case letters, as the database makes them; the text of an id could otherwise contain one of the phrases.
- Delivery.DeliveryOrderDoesNotMatter: amount and time agree between permutations only when Paystack answers every verification of the reference alike.
- Money.KoboRoundTrip: amounts up to 10^13 kobo, which includes every value a Decimal(12, 2) column can hold.
- Pagination.WalkIsListIffIdsFollowTime: an id is its rank in the database's ordering of ids; the collation itself is not modelled.
- Releases and refunds in disorderly runs are not undone by a reference that is already used; in every reachable state `Safety.LedgerKept` shows that none is.
- Ledger references made from order id and time are structured values, so a manual caller's own text that imitates `FEE-`, `REL-` or `REFUND-` does not collide in the model.
- Actor ids, notes, channels and the raw Paystack answers in ledger, audit and payment rows; they carry no decision.
- The per-status counts of the summary and the other read-only queries (payment history, dispute lists).
- The rows of a listing are given as the database returns them; search, date and role filters are not modelled.
- Notifications, e-mail, messages, tracking, waybill scans, users, authentication, signature and address checks, and the web front end.
