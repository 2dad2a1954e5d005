/** webhook.service.ts: charge.success and charge.failed. */
module Webhook {
  import opened Types
  import opened Tables
  import opened Metadata
  import Money
  import Escrow

  // The paid_at of an answer: a date, JSON null, or missing or not a date.
  datatype PaidAt = At(time: Time) | NullDate | NoDate

  // Paystack's answer to a verification request; the amount is in kobo.
  datatype Verification = Verification(
    status: string, reference: PaymentRef, metadata: PaymentMetadata,
    amount: Kobo, currency: string, paidAt: PaidAt)
  {
    // The webhook insists on a date.
    function WebhookTime(): Option<Time> {
      if paidAt.At? then Some(paidAt.time) else None
    }

    // Polling passes whatever it got to `new Date`, which takes null for the start of
    // 1970 (section 21.4.2.1 of ECMA-262); an invalid date makes the write fail.
    function PollTime(): Option<Time> {
      match paidAt
      case At(time) => Some(time)
      case NullDate => Some(0)
      case NoDate => None
    }
  }

  datatype ChargeOutcome =
    // nothing is written
    | NoOrderId | NotSuccessful | ReferenceMismatch | MetadataMismatch | BadAmount | BadCurrency
    | NoTimestamp | ChargeNoOrder | BadOrderTotal | ReferenceConflict(owner: OrderId)
    | HoldReferenceTaken      // unique index: the whole transaction rolls back
    // only the payment record is written
    | AmountMismatchRecorded | ExistingHold(samePayment: bool) | Ineligible(status: OrderStatus, escrow: EscrowStatus)
    // record, order, hold and audit row
    | Funded

  predicate TerminalEscrow(escrow: EscrowStatus) {
    escrow in {Released, PartiallyReleased, EscrowStatus.Refunded, EscrowStatus.Disputed}
  }

  // Everything checked before the first transaction; None when the delivery goes on.
  function Screening(s: Store, reference: PaymentRef, metadata: PaymentMetadata,
                     v: Verification): Option<ChargeOutcome> {
    var incoming := ExtractedOrderId(metadata);
    if incoming.None? then Some(NoOrderId)
    else if v.status != "success" then Some(NotSuccessful)
    else if v.reference != reference then Some(ReferenceMismatch)
    else if ExtractedOrderId(v.metadata) != incoming then Some(MetadataMismatch)
    else if v.amount <= 0 then Some(BadAmount)
    else if v.currency != "NGN" then Some(BadCurrency)
    else if v.WebhookTime().None? then Some(NoTimestamp)
    else if incoming.value !in s.orders then Some(ChargeNoOrder)
    else if s.orders[incoming.value].total <= 0 then Some(BadOrderTotal)
    else None
  }

  function MismatchVerdict(s: Store, id: OrderId, reference: PaymentRef): ChargeOutcome {
    if reference in s.payments && s.payments[reference].orderId != id
    then ReferenceConflict(s.payments[reference].orderId)
    else AmountMismatchRecorded
  }

  function FundingVerdict(s: Store, id: OrderId, reference: PaymentRef): ChargeOutcome
    requires id in s.orders
  {
    var order := s.orders[id];
    var hold := FindHold(s.ledger, id);
    if reference in s.payments && s.payments[reference].orderId != id
    then ReferenceConflict(s.payments[reference].orderId)
    else if hold.Some? then
      ExistingHold(hold.value.paystackRef == Some(reference) || hold.value.reference == EscrowFor(reference))
    else if TerminalEscrow(order.escrow) then Ineligible(order.status, order.escrow)
    else if order.status != AwaitingPayment && order.status != Paid then Ineligible(order.status, order.escrow)
    else if RefTaken(s.ledger, EscrowFor(reference)) then HoldReferenceTaken
    else Funded
  }

  function ChargeVerdict(s: Store, reference: PaymentRef, metadata: PaymentMetadata, v: Verification,
                         oneKoboOver: bool): ChargeOutcome {
    var screened := Screening(s, reference, metadata, v);
    if screened.Some? then screened.value
    else
      var id := ExtractedOrderId(metadata).value;
      if Money.AmountMismatch(v.amount, s.orders[id].total, oneKoboOver) then MismatchVerdict(s, id, reference)
      else FundingVerdict(s, id, reference)
  }

  predicate RecordsPayment(outcome: ChargeOutcome) {
    outcome.AmountMismatchRecorded? || outcome.ExistingHold? || outcome.Ineligible? || outcome.Funded?
  }

  function SuccessRecord(id: OrderId, v: Verification): Payment {
    Payment(id, v.amount, PaymentSuccess, v.WebhookTime())
  }

  // The tables after a delivery for order `id` that came to `outcome`.
  function Committed(s: Store, id: OrderId, reference: PaymentRef, v: Verification, outcome: ChargeOutcome): (t: Store)
    requires id in s.orders
    ensures SameFrame(s, t)
  {
    if !RecordsPayment(outcome) then s
    else
      var recorded := s.(payments := s.payments[reference := SuccessRecord(id, v)]);
      if !outcome.Funded? then recorded
      else
        var order := s.orders[id];
        var paidAt := if order.status == Paid then order.stamps.paid else v.WebhookTime();
        Escrow.Fund(recorded, id, v.amount, EscrowFor(reference), Some(reference), paidAt)
  }

  function AfterCharge(s: Store, reference: PaymentRef, metadata: PaymentMetadata, v: Verification,
                       oneKoboOver: bool, schedulingWorks: bool): (t: Store)
    ensures SameFrame(s, t)
  {
    if Screening(s, reference, metadata, v).Some? then s
    else
      var id := ExtractedOrderId(metadata).value;
      var outcome := ChargeVerdict(s, reference, metadata, v, oneKoboOver);
      var committed := Committed(s, id, reference, v, outcome);
      if outcome.Funded? && schedulingWorks then committed.(jobs := s.jobs + {id}) else committed
  }

  function AfterChargeFailed(s: Store, reference: PaymentRef): (t: Store)
    ensures SameFrame(s, t)
  {
    if reference in s.payments && !s.payments[reference].state.PaymentSuccess?
    then s.(payments := s.payments[reference := s.payments[reference].(state := PaymentFailed)])
    else s
  }

  class WebhookService {
    const db: Database
    const escrow: Escrow.EscrowService

    constructor (db: Database, escrow: Escrow.EscrowService)
      requires escrow.db == db
      ensures this.db == db && this.escrow == escrow
    {
      this.db, this.escrow := db, escrow;
    }

    // `v` is what verifyTransaction answers; `schedulingWorks` whether the queue accepts the job.
    method HandleChargeSuccess(reference: PaymentRef, metadata: PaymentMetadata, v: Verification,
                               oneKoboOver: bool, schedulingWorks: bool) returns (r: ChargeOutcome)
      requires escrow.db == db
      modifies db
      ensures r == ChargeVerdict(old(db.State()), reference, metadata, v, oneKoboOver)
      ensures db.State() == AfterCharge(old(db.State()), reference, metadata, v, oneKoboOver, schedulingWorks)
    {
      var incomingOrderId := ExtractOrderId(metadata);
      if incomingOrderId.None? {
        return NoOrderId;
      }
      if v.status != "success" {
        return NotSuccessful;
      }
      if v.reference != reference {
        return ReferenceMismatch;
      }
      var verifiedOrderId := ExtractOrderId(v.metadata);
      if verifiedOrderId.None? || verifiedOrderId != incomingOrderId {
        return MetadataMismatch;
      }
      var id := verifiedOrderId.value;
      if v.amount <= 0 {
        return BadAmount;
      }
      if v.currency != "NGN" {
        return BadCurrency;
      }
      if v.WebhookTime().None? {
        return NoTimestamp;
      }
      if id !in db.orders {
        return ChargeNoOrder;
      }
      var expected := db.orders[id].total;
      if expected <= 0 {
        return BadOrderTotal;
      }
      if Money.AmountMismatch(v.amount, expected, oneKoboOver) {
        r := RecordMismatch(id, reference, v);
        return;
      }
      r := FundOrder(id, reference, v);
      if r.Funded? {
        // a failure is logged and changes nothing
        var _ := escrow.ScheduleAutoRelease(id, schedulingWorks);
      }
    }

    // The first transaction: record for reconciliation, never fund.
    method RecordMismatch(id: OrderId, reference: PaymentRef, v: Verification) returns (r: ChargeOutcome)
      requires id in db.orders
      modifies db
      ensures r == MismatchVerdict(old(db.State()), id, reference)
      ensures db.State() == Committed(old(db.State()), id, reference, v, r)
    {
      if reference in db.payments && db.payments[reference].orderId != id {
        return ReferenceConflict(db.payments[reference].orderId);
      }
      db.payments := db.payments[reference := SuccessRecord(id, v)];
      return AmountMismatchRecorded;
    }

    // The second transaction. A unique-index failure undoes the record it has already written.
    method FundOrder(id: OrderId, reference: PaymentRef, v: Verification) returns (r: ChargeOutcome)
      requires id in db.orders
      modifies db
      ensures r == FundingVerdict(old(db.State()), id, reference)
      ensures db.State() == Committed(old(db.State()), id, reference, v, r)
    {
      if reference in db.payments && db.payments[reference].orderId != id {
        return ReferenceConflict(db.payments[reference].orderId);
      }
      var before := db.payments;
      db.payments := db.payments[reference := SuccessRecord(id, v)];
      var order := db.orders[id];
      var existingHold := FindHold(db.ledger, id);
      if existingHold.Some? {
        var hold := existingHold.value;
        return ExistingHold(hold.paystackRef == Some(reference) || hold.reference == EscrowFor(reference));
      }
      if TerminalEscrow(order.escrow) {
        return Ineligible(order.status, order.escrow);
      }
      if order.status != AwaitingPayment && order.status != Paid {
        return Ineligible(order.status, order.escrow);
      }
      if RefTaken(db.ledger, EscrowFor(reference)) {
        db.payments := before;
        return HoldReferenceTaken;
      }
      CreateHold(id, reference, v.amount, if order.status == Paid then order.stamps.paid else v.WebhookTime());
      return Funded;
    }

    method CreateHold(id: OrderId, reference: PaymentRef, amount: Kobo, paidAt: Option<Time>)
      requires id in db.orders
      modifies db
      ensures db.State() ==
        Escrow.Fund(old(db.State()), id, amount, EscrowFor(reference), Some(reference), paidAt)
    {
      db.orders := db.orders[id := Escrow.FundedOrder(db.orders[id], paidAt)];
      db.ledger := db.ledger + [Escrow.HoldRow(id, amount, EscrowFor(reference), Some(reference))];
      db.audit := db.audit + [Escrow.HoldAudit(id, amount, EscrowFor(reference), Some(reference))];
    }

    method HandleChargeFailed(reference: PaymentRef)
      modifies db
      ensures db.State() == AfterChargeFailed(old(db.State()), reference)
    {
      if reference in db.payments && !db.payments[reference].state.PaymentSuccess? {
        db.payments := db.payments[reference := db.payments[reference].(state := PaymentFailed)];
      }
    }
  }
}
