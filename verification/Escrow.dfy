/** escrow.service.ts: hold, release and refund, the auto-release queue and the summary. */
module Escrow {
  import opened Types
  import opened Tables
  import Money

  // ---------------------------------------------------------------- holdFunds

  datatype HoldOutcome =
    | Held | HoldNoOrder | HoldNotAwaiting(status: OrderStatus) | HoldExists(reference: LedgerRef)
    | HoldReferenceUsed | HoldAmountMismatch
    | HeldUnscheduled   // committed, and then the queue fails and so does the call

  function HoldVerdict(s: Store, id: OrderId, amount: Kobo, reference: LedgerRef, oneKoboOver: bool): HoldOutcome {
    if id !in s.orders then HoldNoOrder
    else if s.orders[id].status != AwaitingPayment then HoldNotAwaiting(s.orders[id].status)
    else if FindHold(s.ledger, id).Some? then HoldExists(FindHold(s.ledger, id).value.reference)
    else if RefTaken(s.ledger, reference) then HoldReferenceUsed
    else if Money.AmountMismatch(amount, s.orders[id].total, oneKoboOver) then HoldAmountMismatch
    else Held
  }

  // The rows written by both ways of funding an order.
  function HoldRow(id: OrderId, amount: Kobo, reference: LedgerRef, paystackRef: Option<PaymentRef>): LedgerRow {
    LedgerRow(id, EscrowHold, amount, reference, paystackRef)
  }

  function HoldAudit(id: OrderId, amount: Kobo, reference: LedgerRef, paystackRef: Option<PaymentRef>): AuditRow {
    AuditRow(id, HoldAction, EscrowStatus.Pending, Holding, amount, reference, HoldMetadata(paystackRef))
  }

  function FundedOrder(order: Order, paidAt: Option<Time>): Order {
    order.(status := Paid, escrow := Holding, stamps := order.stamps.(paid := paidAt))
  }

  function Fund(s: Store, id: OrderId, amount: Kobo, reference: LedgerRef, paystackRef: Option<PaymentRef>,
                paidAt: Option<Time>): (t: Store)
    requires id in s.orders
    ensures SameFrame(s, t)
  {
    s.(ledger := s.ledger + [HoldRow(id, amount, reference, paystackRef)],
       orders := s.orders[id := FundedOrder(s.orders[id], paidAt)],
       audit := s.audit + [HoldAudit(id, amount, reference, paystackRef)])
  }

  function AfterHold(s: Store, id: OrderId, amount: Kobo, reference: LedgerRef, paystackRef: Option<PaymentRef>,
                     oneKoboOver: bool, queueWorks: bool): (t: Store)
    ensures SameFrame(s, t)
  {
    if !HoldVerdict(s, id, amount, reference, oneKoboOver).Held? then s
    else
      Fund(s, id, amount, reference, paystackRef, Some(s.now)).(jobs := if queueWorks then s.jobs + {id} else s.jobs)
  }

  // -------------------------------------------------------------- releaseFunds

  datatype ReleaseOutcome =
    | ReleaseDone | ReleaseNoOrder | NotReleasable(status: OrderStatus) | AlreadyReleased
    | Frozen(escrow: EscrowStatus) | ReleaseNoHold

  function ReleaseVerdict(s: Store, id: OrderId): ReleaseOutcome {
    if id !in s.orders then ReleaseNoOrder
    else
      var order := s.orders[id];
      if order.status !in {Delivered, Completed} then NotReleasable(order.status)
      else if order.escrow == Released then AlreadyReleased
      else if order.escrow in {EscrowStatus.Refunded, EscrowStatus.Disputed} then Frozen(order.escrow)
      else if FindHold(s.ledger, id).None? then ReleaseNoHold
      else ReleaseDone
  }

  function FeeRow(order: Order, hold: LedgerRow, id: OrderId, now: Time): LedgerRow {
    LedgerRow(id, PlatformFee, hold.amount - order.sellerPayout, FeeFor(id, now), None)
  }

  function ReleaseRow(order: Order, id: OrderId, now: Time): LedgerRow {
    LedgerRow(id, FullRelease, order.sellerPayout, ReleaseOf(id, now), None)
  }

  function ReleaseAudit(order: Order, hold: LedgerRow, id: OrderId, now: Time, trigger: Trigger): AuditRow {
    AuditRow(id, ReleaseAction(trigger), Holding, Released, order.sellerPayout, ReleaseOf(id, now),
             ReleaseMetadata(hold.amount - order.sellerPayout))
  }

  function ReleasedOrder(order: Order, now: Time): Order {
    order.(status := Completed, escrow := Released, stamps := order.stamps.(completed := Some(now)))
  }

  function AfterRelease(s: Store, id: OrderId, trigger: Trigger): (t: Store)
    ensures SameFrame(s, t)
  {
    if !ReleaseVerdict(s, id).ReleaseDone? then s
    else
      var order := s.orders[id];
      var hold := FindHold(s.ledger, id).value;
      s.(ledger := s.ledger + [FeeRow(order, hold, id, s.now)] + [ReleaseRow(order, id, s.now)],
         orders := s.orders[id := ReleasedOrder(order, s.now)],
         audit := s.audit + [ReleaseAudit(order, hold, id, s.now, trigger)],
         jobs := if trigger == ByAutoRelease then s.jobs else s.jobs - {id})
  }

  // -------------------------------------------------------------- adminRelease

  datatype AdminReleaseOutcome =
    | AdminNoOrder | AdminNotHolding(escrow: EscrowStatus) | AdminNotDelivered(status: OrderStatus)
    | AdminActiveDispute | Delegated(outcome: ReleaseOutcome)

  function AdminReleaseVerdict(s: Store, id: OrderId): AdminReleaseOutcome {
    if id !in s.orders then AdminNoOrder
    else if s.orders[id].escrow != Holding then AdminNotHolding(s.orders[id].escrow)
    else if s.orders[id].status != Delivered then AdminNotDelivered(s.orders[id].status)
    else if id in s.disputes && s.disputes[id].state in {Open, UnderReview} then AdminActiveDispute
    else Delegated(ReleaseVerdict(s, id))
  }

  function AfterAdminRelease(s: Store, id: OrderId): (t: Store)
    ensures SameFrame(s, t)
  {
    if AdminReleaseVerdict(s, id).Delegated? then AfterRelease(s, id, ByAdmin) else s
  }

  // --------------------------------------------------------------- refundFunds

  datatype RefundOutcome =
    | RefundDone | RefundNoOrder | RefundNotDisputed(status: OrderStatus) | AlreadyRefunded
    | RefundAfterRelease | RefundNoHold

  function RefundVerdict(s: Store, id: OrderId): RefundOutcome {
    if id !in s.orders then RefundNoOrder
    else
      var order := s.orders[id];
      if order.status != OrderStatus.Disputed then RefundNotDisputed(order.status)
      else if order.escrow == EscrowStatus.Refunded then AlreadyRefunded
      else if order.escrow == Released then RefundAfterRelease
      else if FindHold(s.ledger, id).None? then RefundNoHold
      else RefundDone
  }

  function RefundRow(hold: LedgerRow, id: OrderId, now: Time): LedgerRow {
    LedgerRow(id, LedgerKind.Refund, hold.amount, RefundOf(id, now), None)
  }

  function RefundAudit(hold: LedgerRow, id: OrderId, now: Time): AuditRow {
    AuditRow(id, RefundAction, EscrowStatus.Disputed, EscrowStatus.Refunded, hold.amount, RefundOf(id, now),
             RefundMetadata)
  }

  function RefundedOrder(order: Order, now: Time): Order {
    order.(status := OrderStatus.Refunded, escrow := EscrowStatus.Refunded,
           stamps := order.stamps.(refunded := Some(now)))
  }

  function AfterRefund(s: Store, id: OrderId): (t: Store)
    ensures SameFrame(s, t)
  {
    if !RefundVerdict(s, id).RefundDone? then s
    else
      var hold := FindHold(s.ledger, id).value;
      s.(ledger := s.ledger + [RefundRow(hold, id, s.now)],
         orders := s.orders[id := RefundedOrder(s.orders[id], s.now)],
         audit := s.audit + [RefundAudit(hold, id, s.now)],
         jobs := s.jobs - {id})
  }

  // ---------------------------------------------------------------- getSummary

  datatype Summary = Summary(totalOrders: nat, held: Kobo, released: Kobo, refunded: Kobo, platformFees: Kobo)

  function SumOf(ledger: seq<LedgerRow>, kind: LedgerKind): Kobo {
    if ledger == [] then 0
    else
      var last := ledger[|ledger| - 1];
      SumOf(ledger[..|ledger| - 1], kind) + if last.kind == kind then last.amount else 0
  }

  function CountOf(ledger: seq<LedgerRow>, kind: LedgerKind): nat {
    if ledger == [] then 0
    else
      var last := ledger[|ledger| - 1];
      CountOf(ledger[..|ledger| - 1], kind) + if last.kind == kind then 1 else 0
  }

  function Summarise(ledger: seq<LedgerRow>): Summary {
    Summary(CountOf(ledger, EscrowHold), SumOf(ledger, EscrowHold), SumOf(ledger, FullRelease),
            SumOf(ledger, LedgerKind.Refund), SumOf(ledger, PlatformFee))
  }

  // ------------------------------------------------------------------- service

  class EscrowService {
    const db: Database

    constructor (db: Database)
      ensures this.db == db
    {
      this.db := db;
    }

    method ScheduleAutoRelease(id: OrderId, queueWorks: bool) returns (scheduled: bool)
      modifies db
      ensures scheduled == queueWorks
      ensures db.State() == old(db.State()).(jobs := if queueWorks then old(db.jobs) + {id} else old(db.jobs))
    {
      if queueWorks {
        db.jobs := db.jobs + {id};
      }
      return queueWorks;
    }

    method CancelAutoRelease(id: OrderId)
      modifies db
      ensures db.State() == old(db.State()).(jobs := old(db.jobs) - {id})
    {
      if id !in db.jobs {
        return;
      }
      db.jobs := db.jobs - {id};
    }

    method HoldFunds(id: OrderId, amount: Kobo, reference: LedgerRef, paystackRef: Option<PaymentRef>,
                     oneKoboOver: bool, queueWorks: bool) returns (r: HoldOutcome)
      modifies db
      ensures
        var verdict := HoldVerdict(old(db.State()), id, amount, reference, oneKoboOver);
        r == if verdict.Held? && !queueWorks then HeldUnscheduled else verdict
      ensures db.State() == AfterHold(old(db.State()), id, amount, reference, paystackRef, oneKoboOver, queueWorks)
    {
      if id !in db.orders {
        return HoldNoOrder;
      }
      var order := db.orders[id];
      if order.status != AwaitingPayment {
        return HoldNotAwaiting(order.status);
      }
      var existingHold := FindHold(db.ledger, id);
      if existingHold.Some? {
        return HoldExists(existingHold.value.reference);
      }
      if RefTaken(db.ledger, reference) {
        return HoldReferenceUsed;
      }
      if Money.AmountMismatch(amount, order.total, oneKoboOver) {
        return HoldAmountMismatch;
      }
      db.ledger := db.ledger + [HoldRow(id, amount, reference, paystackRef)];
      db.orders := db.orders[id := FundedOrder(order, Some(db.now))];
      db.audit := db.audit + [HoldAudit(id, amount, reference, paystackRef)];
      var scheduled := ScheduleAutoRelease(id, queueWorks);
      return if scheduled then Held else HeldUnscheduled;
    }

    method ReleaseFunds(id: OrderId, trigger: Trigger) returns (r: ReleaseOutcome)
      modifies db
      ensures r == ReleaseVerdict(old(db.State()), id)
      ensures db.State() == AfterRelease(old(db.State()), id, trigger)
    {
      if id !in db.orders {
        return ReleaseNoOrder;
      }
      var order := db.orders[id];
      if order.status !in {Delivered, Completed} {
        return NotReleasable(order.status);
      }
      if order.escrow == Released {
        return AlreadyReleased;
      }
      if order.escrow in {EscrowStatus.Refunded, EscrowStatus.Disputed} {
        return Frozen(order.escrow);
      }
      var activeHold := FindHold(db.ledger, id);
      if activeHold.None? {
        return ReleaseNoHold;
      }
      db.ledger := db.ledger + [FeeRow(order, activeHold.value, id, db.now)];
      db.ledger := db.ledger + [ReleaseRow(order, id, db.now)];
      db.orders := db.orders[id := ReleasedOrder(order, db.now)];
      db.audit := db.audit + [ReleaseAudit(order, activeHold.value, id, db.now, trigger)];
      if trigger == ByBuyer || trigger == ByAdmin {
        CancelAutoRelease(id);
      }
      return ReleaseDone;
    }

    method AdminRelease(id: OrderId) returns (r: AdminReleaseOutcome)
      modifies db
      ensures r == AdminReleaseVerdict(old(db.State()), id)
      ensures db.State() == AfterAdminRelease(old(db.State()), id)
    {
      if id !in db.orders {
        return AdminNoOrder;
      }
      var order := db.orders[id];
      if order.escrow != Holding {
        return AdminNotHolding(order.escrow);
      }
      if order.status != Delivered {
        return AdminNotDelivered(order.status);
      }
      if id in db.disputes && db.disputes[id].state in {Open, UnderReview} {
        return AdminActiveDispute;
      }
      var outcome := ReleaseFunds(id, ByAdmin);
      return Delegated(outcome);
    }

    method RefundFunds(id: OrderId) returns (r: RefundOutcome)
      modifies db
      ensures r == RefundVerdict(old(db.State()), id)
      ensures db.State() == AfterRefund(old(db.State()), id)
    {
      if id !in db.orders {
        return RefundNoOrder;
      }
      var order := db.orders[id];
      if order.status != OrderStatus.Disputed {
        return RefundNotDisputed(order.status);
      }
      if order.escrow == EscrowStatus.Refunded {
        return AlreadyRefunded;
      }
      if order.escrow == Released {
        return RefundAfterRelease;
      }
      var activeHold := FindHold(db.ledger, id);
      if activeHold.None? {
        return RefundNoHold;
      }
      db.ledger := db.ledger + [RefundRow(activeHold.value, id, db.now)];
      db.orders := db.orders[id := RefundedOrder(order, db.now)];
      db.audit := db.audit + [RefundAudit(activeHold.value, id, db.now)];
      CancelAutoRelease(id);
      return RefundDone;
    }
  }
}
