/** What each escrow command leaves in the tables, field by field, and when it leaves anything. */
module EscrowEffects {
  import opened Types
  import opened Tables
  import opened Protocol
  import Blocking
  import Escrow

  // The first hold row of an order, read from the front of the ledger.
  function HoldFrom(ledger: seq<LedgerRow>, id: OrderId): Option<LedgerRow> {
    if ledger == [] then None
    else if ledger[0].orderId == id && ledger[0].kind.EscrowHold? then Some(ledger[0])
    else HoldFrom(ledger[1..], id)
  }

  lemma {:induction false} HoldFromSnoc(ledger: seq<LedgerRow>, row: LedgerRow, id: OrderId)
    ensures HoldFrom(ledger + [row], id) ==
            if HoldFrom(ledger, id).Some? then HoldFrom(ledger, id)
            else if row.orderId == id && row.kind.EscrowHold? then Some(row) else None
  {
    if ledger == [] {
      assert [] + [row] == [row] && [row][1..] == [];
    } else {
      assert (ledger + [row])[1..] == ledger[1..] + [row];
      HoldFromSnoc(ledger[1..], row, id);
    }
  }

  lemma {:induction false} FirstHoldSnoc(rows: seq<LedgerRow>, row: LedgerRow)
    ensures FirstHold(rows + [row]) ==
            if FirstHold(rows).Some? then FirstHold(rows) else if row.kind.EscrowHold? then Some(row) else None
  {
    if rows == [] {
      assert [] + [row] == [row] && [row][1..] == [];
    } else {
      assert (rows + [row])[1..] == rows[1..] + [row];
      FirstHoldSnoc(rows[1..], row);
    }
  }

  lemma {:induction false} HoldIsFirst(ledger: seq<LedgerRow>, id: OrderId)
    ensures FindHold(ledger, id) == HoldFrom(ledger, id)
  {
    if ledger != [] {
      var before, last := ledger[..|ledger| - 1], ledger[|ledger| - 1];
      HoldIsFirst(before, id);
      HoldFromSnoc(before, last, id);
      FirstHoldSnoc(Rows(before, id), last);
      assert before + [last] == ledger;
    }
  }

  // The amount check: equal, or one kobo off when the floats let that pass.
  predicate AmountPasses(paid: Kobo, expected: Kobo, oneKoboOver: bool) {
    paid == expected || (!oneKoboOver && (paid == expected + 1 || paid == expected - 1))
  }

  predicate Unused(ledger: seq<LedgerRow>, reference: LedgerRef) {
    forall i :: 0 <= i < |ledger| ==> ledger[i].reference != reference
  }

  // ---------------------------------------------------------------- holdFunds

  predicate HoldGoesThrough(s: Store, c: Command)
    requires c.HoldFunds?
  {
    && c.amount > 0 && (c.holdRef.ByCaller? || c.holdRef.EscrowFor?)
    && c.id in s.orders && s.orders[c.id].status == AwaitingPayment
    && HoldFrom(s.ledger, c.id).None? && Unused(s.ledger, c.holdRef)
    && AmountPasses(c.amount, s.orders[c.id].total, c.oneKoboOver)
  }

  /** A manual hold writes, if and only if all its guards pass, the hold row, the order's
      PAID with HOLDING and its payment time, the audit row, and the job if the queue works. */
  lemma HoldExactly(s: Store, c: Command)
    requires c.HoldFunds?
    ensures
      Step(s, c) ==
      if !HoldGoesThrough(s, c) then s
      else
        var order := s.orders[c.id];
        s.(ledger := s.ledger + [LedgerRow(c.id, EscrowHold, c.amount, c.holdRef, c.paystackRef)],
           orders := s.orders[c.id := order.(status := Paid, escrow := Holding,
                                             stamps := order.stamps.(paid := Some(s.now)))],
           audit := s.audit + [AuditRow(c.id, HoldAction, EscrowStatus.Pending, Holding, c.amount, c.holdRef,
                                        HoldMetadata(c.paystackRef))],
           jobs := if c.queueWorks then s.jobs + {c.id} else s.jobs)
  {
    HoldIsFirst(s.ledger, c.id);
  }

  /** Each refusal of a manual hold is given exactly when its guard is the first to fail. */
  lemma HoldAnswer(s: Store, id: OrderId, amount: Kobo, reference: LedgerRef, oneKoboOver: bool)
    ensures
      var answer := Escrow.HoldVerdict(s, id, amount, reference, oneKoboOver);
      && (answer.HoldNoOrder? <==> id !in s.orders)
      && (id in s.orders ==>
            var order, hold := s.orders[id], HoldFrom(s.ledger, id);
            var awaiting, free := order.status == AwaitingPayment, Unused(s.ledger, reference);
            && (answer == Escrow.HoldNotAwaiting(order.status) <==> !awaiting)
            && (hold.Some? ==> (answer == Escrow.HoldExists(hold.value.reference) <==> awaiting))
            && (answer.HoldReferenceUsed? <==> awaiting && hold.None? && !free)
            && (answer.HoldAmountMismatch? <==>
                  awaiting && hold.None? && free && !AmountPasses(amount, order.total, oneKoboOver))
            && (answer.Held? <==>
                  awaiting && hold.None? && free && AmountPasses(amount, order.total, oneKoboOver)))
  {
    HoldIsFirst(s.ledger, id);
  }

  // -------------------------------------------------------------- releaseFunds

  predicate Releasable(s: Store, id: OrderId) {
    && id in s.orders && s.orders[id].status in {Delivered, Completed}
    && s.orders[id].escrow in {EscrowStatus.Pending, Holding, PartiallyReleased}
    && HoldFrom(s.ledger, id).Some?
  }

  // The tables after a release, all but the queue.
  function PaidOutBy(s: Store, id: OrderId, trigger: Trigger): Store
    requires Releasable(s, id)
  {
    var order, held := s.orders[id], HoldFrom(s.ledger, id).value.amount;
    s.(ledger := s.ledger + [LedgerRow(id, PlatformFee, held - order.sellerPayout, FeeFor(id, s.now), None)]
                          + [LedgerRow(id, FullRelease, order.sellerPayout, ReleaseOf(id, s.now), None)],
       orders := s.orders[id := order.(status := Completed, escrow := Released,
                                       stamps := order.stamps.(completed := Some(s.now)))],
       audit := s.audit + [AuditRow(id, ReleaseAction(trigger), Holding, Released, order.sellerPayout,
                                    ReleaseOf(id, s.now), ReleaseMetadata(held - order.sellerPayout))])
  }

  lemma ReleaseExactly(s: Store, id: OrderId, trigger: Trigger)
    ensures
      Escrow.AfterRelease(s, id, trigger) ==
      if !Releasable(s, id) then s
      else PaidOutBy(s, id, trigger).(jobs := if trigger == ByAutoRelease then s.jobs else s.jobs - {id})
  {
    HoldIsFirst(s.ledger, id);
  }

  lemma ReleaseAnswer(s: Store, id: OrderId)
    ensures match Escrow.ReleaseVerdict(s, id)
      case ReleaseNoOrder => id !in s.orders
      case NotReleasable(status) =>
        id in s.orders && status == s.orders[id].status && status !in {Delivered, Completed}
      case AlreadyReleased =>
        id in s.orders && s.orders[id].status in {Delivered, Completed} && s.orders[id].escrow == Released
      case Frozen(escrow) =>
        && id in s.orders && s.orders[id].status in {Delivered, Completed}
        && escrow == s.orders[id].escrow && escrow in {EscrowStatus.Refunded, EscrowStatus.Disputed}
      case ReleaseNoHold =>
        && id in s.orders && s.orders[id].status in {Delivered, Completed}
        && s.orders[id].escrow in {EscrowStatus.Pending, Holding, PartiallyReleased}
        && HoldFrom(s.ledger, id).None?
      case ReleaseDone => Releasable(s, id)
  {
    HoldIsFirst(s.ledger, id);
  }

  /** A job pays out the order if and only if it can be released, and is used up in any case
      but that of an order that does not exist. */
  lemma JobExactly(s: Store, id: OrderId)
    ensures id in s.orders ==>
      Step(s, AutoReleaseJob(id)) ==
      (if Releasable(s, id) then PaidOutBy(s, id, ByAutoRelease) else s).(jobs := s.jobs - {id})
    ensures id !in s.orders && Blocking.PlainId(id) ==> Step(s, AutoReleaseJob(id)) == s
  {
    ReleaseExactly(s, id, ByAutoRelease);
    Blocking.WorkerClassifiesRefusals(s, id);
  }

  /** An administrator's release goes through if and only if escrow is HOLDING, the order
      DELIVERED and funded, and no dispute is open or under review. */
  lemma AdminReleaseExactly(s: Store, id: OrderId)
    ensures
      Step(s, AdminRelease(id)) ==
      if id in s.orders && s.orders[id].escrow == Holding && s.orders[id].status == Delivered
         && (id in s.disputes ==> s.disputes[id].state != Open && s.disputes[id].state != UnderReview)
         && HoldFrom(s.ledger, id).Some?
      then PaidOutBy(s, id, ByAdmin).(jobs := s.jobs - {id})
      else s
  {
    ReleaseExactly(s, id, ByAdmin);
  }

  lemma AdminReleaseAnswer(s: Store, id: OrderId)
    ensures match Escrow.AdminReleaseVerdict(s, id)
      case AdminNoOrder => id !in s.orders
      case AdminNotHolding(escrow) => id in s.orders && escrow == s.orders[id].escrow && escrow != Holding
      case AdminNotDelivered(status) =>
        id in s.orders && s.orders[id].escrow == Holding && status == s.orders[id].status && status != Delivered
      case AdminActiveDispute =>
        && id in s.orders && s.orders[id].escrow == Holding && s.orders[id].status == Delivered
        && id in s.disputes && (s.disputes[id].state == Open || s.disputes[id].state == UnderReview)
      case Delegated(outcome) =>
        && id in s.orders && s.orders[id].escrow == Holding && s.orders[id].status == Delivered
        && (id in s.disputes ==> s.disputes[id].state != Open && s.disputes[id].state != UnderReview)
        && (if HoldFrom(s.ledger, id).Some? then outcome.ReleaseDone? else outcome.ReleaseNoHold?)
  {
    HoldIsFirst(s.ledger, id);
  }

  // --------------------------------------------------------------- refundFunds

  predicate Refundable(s: Store, id: OrderId) {
    && id in s.orders && s.orders[id].status == OrderStatus.Disputed
    && s.orders[id].escrow !in {EscrowStatus.Refunded, Released}
    && HoldFrom(s.ledger, id).Some?
  }

  /** A refund gives back the whole hold of a DISPUTED order that is neither refunded nor
      released, and takes its job away; in every other case it changes nothing. */
  lemma RefundExactly(s: Store, id: OrderId)
    ensures
      Step(s, RefundFunds(id)) ==
      if !Refundable(s, id) then s
      else
        var order, held := s.orders[id], HoldFrom(s.ledger, id).value.amount;
        s.(ledger := s.ledger + [LedgerRow(id, LedgerKind.Refund, held, RefundOf(id, s.now), None)],
           orders := s.orders[id := order.(status := OrderStatus.Refunded, escrow := EscrowStatus.Refunded,
                                           stamps := order.stamps.(refunded := Some(s.now)))],
           audit := s.audit + [AuditRow(id, RefundAction, EscrowStatus.Disputed, EscrowStatus.Refunded, held,
                                        RefundOf(id, s.now), RefundMetadata)],
           jobs := s.jobs - {id})
  {
    HoldIsFirst(s.ledger, id);
    RefundStep(s, id);
  }

  lemma RefundAnswer(s: Store, id: OrderId)
    ensures match Escrow.RefundVerdict(s, id)
      case RefundNoOrder => id !in s.orders
      case RefundNotDisputed(status) =>
        id in s.orders && status == s.orders[id].status && status != OrderStatus.Disputed
      case AlreadyRefunded =>
        id in s.orders && s.orders[id].status == OrderStatus.Disputed && s.orders[id].escrow == EscrowStatus.Refunded
      case RefundAfterRelease =>
        id in s.orders && s.orders[id].status == OrderStatus.Disputed && s.orders[id].escrow == Released
      case RefundNoHold =>
        && id in s.orders && s.orders[id].status == OrderStatus.Disputed
        && s.orders[id].escrow !in {EscrowStatus.Refunded, Released} && HoldFrom(s.ledger, id).None?
      case RefundDone => Refundable(s, id)
  {
    HoldIsFirst(s.ledger, id);
  }
}
