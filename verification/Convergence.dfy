/** Polling and the webhook lead to the same tables, in whatever order they run. */
module Convergence {
  import opened Types
  import opened Tables
  import opened Protocol
  import opened Metadata
  import opened Webhook
  import opened Delivery
  import Money
  import Escrow
  import Payments

  // One payment: its reference, its order, what Paystack says of it, and what its webhooks carry.
  datatype Charge = Charge(reference: PaymentRef, id: OrderId, v: Verification, metadata: PaymentMetadata)

  predicate WellFormed(p: Charge) {
    && ExtractedOrderId(p.metadata) == Some(p.id) && ExtractedOrderId(p.v.metadata) == Some(p.id)
    && p.v.status == "success" && p.v.reference == p.reference && p.v.amount > 0
    && p.v.currency == "NGN" && p.v.WebhookTime().Some?
  }

  // A poll or a webhook delivery of this payment; the amount check and the queue accept it.
  predicate IsPoll(c: Command, p: Charge) {
    c.VerifyByReference? && c.reference == p.reference && c.v == p.v
  }

  predicate IsDelivery(c: Command, p: Charge, total: Kobo) {
    && c.ChargeSuccess? && c.reference == p.reference && c.v == p.v && c.metadata == p.metadata
    && !Money.AmountMismatch(p.v.amount, total, c.oneKoboOver) && c.schedulingWorks
  }

  // The order awaits exactly this payment.
  predicate Awaits(s: Store, p: Charge) {
    && p.id in s.orders && s.orders[p.id].total > 0
    && s.orders[p.id].status == AwaitingPayment && s.orders[p.id].escrow == EscrowStatus.Pending
    && FindHold(s.ledger, p.id).None? && !RefTaken(s.ledger, EscrowFor(p.reference))
    && RecordMatches(s, p)
  }

  predicate RecordMatches(s: Store, p: Charge) {
    p.reference in s.payments ==>
      && s.payments[p.reference].orderId == p.id
      && (s.payments[p.reference].state.PaymentSuccess? ==> s.payments[p.reference].verifiedAt == p.v.WebhookTime())
  }

  // The tables once the payment has funded the order.
  function FundedBy(start: Store, p: Charge): Store
    requires p.id in start.orders
  {
    Escrow.Fund(start.(payments := start.payments[p.reference := SuccessRecord(p.id, p.v)]),
                p.id, p.v.amount, EscrowFor(p.reference), Some(p.reference), p.v.WebhookTime())
    .(jobs := start.jobs + {p.id})
  }

  // Not funded yet: a poll may have marked the record and the order.
  predicate NotYet(s: Store, start: Store, p: Charge) {
    && Awaits(start, p) && p.id in s.orders && p.v.WebhookTime().Some?
    && (s.orders[p.id] == start.orders[p.id]
        || s.orders[p.id] == Payments.PaidOrder(start.orders[p.id], p.v.WebhookTime().value))
    && RecordMatches(s, p)
    && s == start.(payments := s.payments, orders := start.orders[p.id := s.orders[p.id]])
    && s.payments[p.reference := SuccessRecord(p.id, p.v)] == start.payments[p.reference := SuccessRecord(p.id, p.v)]
  }

  lemma PollWaits(s: Store, start: Store, oneKoboOver: bool, p: Charge)
    requires WellFormed(p) && NotYet(s, start, p)
    ensures NotYet(Payments.AfterVerify(s, p.reference, p.v, oneKoboOver), start, p)
  {
    if Payments.Confirms(s, p.reference, p.v) {
      Payments.PollingHoldDeclines(s, p.reference, p.v, oneKoboOver);
    }
  }

  lemma DeliveryPasses(s: Store, start: Store, oneKoboOver: bool, p: Charge)
    requires WellFormed(p) && NotYet(s, start, p)
    requires !Money.AmountMismatch(p.v.amount, start.orders[p.id].total, oneKoboOver)
    ensures Screening(s, p.reference, p.metadata, p.v).None?
    ensures ChargeVerdict(s, p.reference, p.metadata, p.v, oneKoboOver).Funded?
  {
  }

  lemma DeliveryCommits(s: Store, start: Store, p: Charge)
    requires WellFormed(p) && NotYet(s, start, p)
    ensures Committed(s, p.id, p.reference, p.v, Funded).(jobs := s.jobs + {p.id}) == FundedBy(start, p)
  {
  }

  lemma DeliveryFunds(s: Store, start: Store, oneKoboOver: bool, p: Charge)
    requires WellFormed(p) && NotYet(s, start, p)
    requires !Money.AmountMismatch(p.v.amount, start.orders[p.id].total, oneKoboOver)
    ensures AfterCharge(s, p.reference, p.metadata, p.v, oneKoboOver, true) == FundedBy(start, p)
  {
    DeliveryPasses(s, start, oneKoboOver, p);
    DeliveryCommits(s, start, p);
  }

  lemma HoldIsThere(start: Store, p: Charge)
    requires p.id in start.orders && FindHold(start.ledger, p.id).None?
    ensures FindHold(FundedBy(start, p).ledger, p.id).Some?
  {
    var row := Escrow.HoldRow(p.id, p.v.amount, EscrowFor(p.reference), Some(p.reference));
    RowsSnoc(start.ledger, row, p.id);
    FirstHoldSnoc(Rows(start.ledger, p.id), row);
  }

  lemma PollStays(start: Store, oneKoboOver: bool, p: Charge)
    requires WellFormed(p) && Awaits(start, p)
    ensures Payments.AfterVerify(FundedBy(start, p), p.reference, p.v, oneKoboOver) == FundedBy(start, p)
  {
  }

  lemma DeliveryStays(start: Store, oneKoboOver: bool, p: Charge)
    requires WellFormed(p) && Awaits(start, p)
    requires !Money.AmountMismatch(p.v.amount, start.orders[p.id].total, oneKoboOver)
    ensures AfterCharge(FundedBy(start, p), p.reference, p.metadata, p.v, oneKoboOver, true) == FundedBy(start, p)
  {
    HoldIsThere(start, p);
    var t := FundedBy(start, p);
    assert Screening(t, p.reference, p.metadata, p.v).None?;
    assert FundingVerdict(t, p.id, p.reference).ExistingHold?;
    assert t.payments[p.reference := SuccessRecord(p.id, p.v)] == t.payments;
  }

  lemma EventStays(start: Store, funded: Store, c: Command, p: Charge)
    requires WellFormed(p) && Awaits(start, p) && funded == FundedBy(start, p)
    requires IsPoll(c, p) || IsDelivery(c, p, start.orders[p.id].total)
    ensures Step(funded, c) == funded
  {
    if c.ChargeSuccess? {
      ChargeStep(funded, c);
      DeliveryStays(start, c.oneKoboOver, p);
    } else {
      PollStep(funded, c);
      PollStays(start, c.oneKoboOver, p);
    }
  }

  lemma EventMoves(s: Store, start: Store, c: Command, p: Charge)
    requires WellFormed(p) && NotYet(s, start, p)
    requires IsPoll(c, p) || IsDelivery(c, p, start.orders[p.id].total)
    ensures if c.ChargeSuccess? then Step(s, c) == FundedBy(start, p) else NotYet(Step(s, c), start, p)
  {
    if c.ChargeSuccess? {
      ChargeStep(s, c);
      DeliveryFunds(s, start, c.oneKoboOver, p);
    } else {
      PollStep(s, c);
      PollWaits(s, start, c.oneKoboOver, p);
    }
  }

  lemma {:induction false} FundedStaysAlong(start: Store, run: seq<Command>, p: Charge)
    requires WellFormed(p) && Awaits(start, p)
    requires forall i :: 0 <= i < |run| ==> IsPoll(run[i], p) || IsDelivery(run[i], p, start.orders[p.id].total)
    ensures Run(FundedBy(start, p), run) == FundedBy(start, p)
    decreases run
  {
    if run != [] {
      EventStays(start, FundedBy(start, p), run[0], p);
      FundedStaysAlong(start, run[1..], p);
    }
  }

  lemma {:induction false} ConvergesFrom(s: Store, start: Store, run: seq<Command>, p: Charge)
    requires WellFormed(p) && NotYet(s, start, p)
    requires forall i :: 0 <= i < |run| ==> IsPoll(run[i], p) || IsDelivery(run[i], p, start.orders[p.id].total)
    ensures if HasChargeSuccess(run) then Run(s, run) == FundedBy(start, p) else NotYet(Run(s, run), start, p)
    decreases run
  {
    if run != [] {
      EventMoves(s, start, run[0], p);
      if run[0].ChargeSuccess? {
        FundedStaysAlong(start, run[1..], p);
      } else {
        ConvergesFrom(Step(s, run[0]), start, run[1..], p);
        TailHasSuccess(run);
      }
    }
  }

  /** Except for an answer without a payment time, where the two part for good: when Paystack
      says null, polling marks the order PAID as of 1970, and no delivery of the same answer
      ever funds it. */
  lemma NullTimePartsThem(s: Store, reference: PaymentRef, v: Verification, oneKoboOver: bool,
                          metadata: PaymentMetadata, accepts: bool)
    requires v.paidAt.NullDate? && Payments.Confirms(s, reference, v)
    ensures
      var t := Payments.AfterVerify(s, reference, v, oneKoboOver);
      var id := s.payments[reference].orderId;
      && id in t.orders && t.orders[id].status == Paid && t.orders[id].stamps.paid == Some(0)
      && AfterCharge(t, reference, metadata, v, accepts, true) == t
  {
    Payments.PollingHoldDeclines(s, reference, v, oneKoboOver);
  }

  /** From AWAITING_PAYMENT, every mixture of polls and webhook deliveries of the matching
      payment that contains at least one delivery ends in the very same tables: same
      status, escrow status and payment time, one hold, one audit entry, one job and one
      record. Polls alone never fund the order. */
  lemma PollingAndWebhookConverge(start: Store, run: seq<Command>, p: Charge)
    requires WellFormed(p) && Awaits(start, p)
    requires forall i :: 0 <= i < |run| ==> IsPoll(run[i], p) || IsDelivery(run[i], p, start.orders[p.id].total)
    ensures HasChargeSuccess(run) ==>
      var t := Run(start, run);
      && t == FundedBy(start, p)
      && t.orders[p.id].status == Paid && t.orders[p.id].escrow == Holding
      && t.orders[p.id].stamps.paid == p.v.WebhookTime()
      && t.ledger == start.ledger + [Escrow.HoldRow(p.id, p.v.amount, EscrowFor(p.reference), Some(p.reference))]
      && |t.audit| == |start.audit| + 1
      && t.jobs == start.jobs + {p.id}
      && t.payments == start.payments[p.reference := SuccessRecord(p.id, p.v)]
    ensures !HasChargeSuccess(run) ==> Run(start, run).ledger == start.ledger
  {
    assert start.orders[p.id := start.orders[p.id]] == start.orders;
    ConvergesFrom(start, start, run, p);
  }
}
