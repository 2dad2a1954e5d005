/** What any command can do to one order: the per-order protocol that the services refine. */
module OrderCases {
  import opened Types
  import opened Tables
  import opened OrderStateMachine
  import opened Protocol
  import Escrow
  import Orders
  import Payments
  import Disputes
  import Transfers
  import Metadata
  import Webhook
  import AutoRelease

  // ------------------------------------------------------------ the moves

  predicate IsHold(order: Order, row: LedgerRow) {
    row.kind.EscrowHold? && row.amount > 0 && -1 <= row.amount - order.total <= 1
  }

  predicate MovedByTable(c: Case, d: Case, now: Time) {
    && HasEdge(c.order.status, d.order.status)
    && (d.order.status == Completed ==> c.order.escrow != Holding)
    && d == c.(order := Orders.MovedOrder(c.order, d.order.status, now))
  }

  predicate Confirmed(c: Case, d: Case, now: Time) {
    && c.order.status == PendingBuyer
    && d.order.buyer.Some?
    && d == c.(order := Orders.ConfirmedOrder(c.order, d.order.buyer.value, now))
  }

  predicate RiderAssigned(c: Case, d: Case) {
    d == c.(order := c.order.(rider := d.order.rider))
  }

  predicate PolledPaid(c: Case, d: Case) {
    && c.order.status in {AwaitingPayment, Paid}
    && d.order.stamps.paid.Some?
    && d == c.(order := Payments.PaidOrder(c.order, d.order.stamps.paid.value))
  }

  predicate Funded(c: Case, d: Case) {
    && c.order.status in {AwaitingPayment, Paid}
    && FirstHold(c.rows).None?
    && |d.rows| == |c.rows| + 1
    && d.rows[..|c.rows|] == c.rows
    && IsHold(c.order, d.rows[|c.rows|])
    && (d.order.stamps.paid.Some? || (c.order.status == Paid && d.order.stamps.paid == c.order.stamps.paid))
    && d.order == Escrow.FundedOrder(c.order, d.order.stamps.paid)
    && d.dispute == c.dispute
  }

  predicate ReleasedStep(id: OrderId, c: Case, d: Case, now: Time) {
    && c.order.status in {Delivered, Completed}
    && c.order.escrow !in {Released, EscrowStatus.Refunded, EscrowStatus.Disputed}
    && FirstHold(c.rows).Some?
    && d.rows == c.rows + [Escrow.FeeRow(c.order, FirstHold(c.rows).value, id, now)]
                        + [Escrow.ReleaseRow(c.order, id, now)]
    && d.order == Escrow.ReleasedOrder(c.order, now)
    && d.dispute == c.dispute
    && !d.job
  }

  predicate RefundedStep(id: OrderId, c: Case, d: Case, now: Time) {
    && c.order.status == OrderStatus.Disputed
    && c.order.escrow !in {Released, EscrowStatus.Refunded}
    && FirstHold(c.rows).Some?
    && d.rows == c.rows + [Escrow.RefundRow(FirstHold(c.rows).value, id, now)]
    && d.order == Escrow.RefundedOrder(c.order, now)
    && d.dispute == c.dispute
    && !d.job
  }

  predicate DisputeRaised(c: Case, d: Case, now: Time) {
    && c.order.status == Delivered
    && c.dispute.None?
    && d.dispute.Some? && d.dispute.value.state.Open?
    && d == c.(order := Disputes.DisputedOrder(c.order, now), dispute := d.dispute)
  }

  predicate DisputeResolved(c: Case, d: Case, now: Time) {
    && c.dispute.Some? && c.dispute.value.state.Open?
    && d.dispute.Some? && d.dispute.value.state.Resolved?
    && var resolution := d.dispute.value.state.resolution;
    && c.order.status in {OrderStatus.Disputed, Disputes.Target(resolution)}
    && d == c.(order := Disputes.ResolvedOrder(c.order, resolution, now), dispute := d.dispute)
  }

  predicate CaseStep(id: OrderId, c: Case, d: Case, now: Time) {
    || c == d
    || d == c.(job := false)
    || MovedByTable(c, d, now)
    || Confirmed(c, d, now)
    || RiderAssigned(c, d)
    || PolledPaid(c, d)
    || Funded(c, d)
    || ReleasedStep(id, c, d, now)
    || RefundedStep(id, c, d, now)
    || DisputeRaised(c, d, now)
    || DisputeResolved(c, d, now)
  }

  // -------------------------------------------------- when the code is orderly

  /** The three places where the code checks less than it relies on. The polling path
      writes PAID without reading the order's status; a resolve call commits without
      re-reading it; a late transfer.success revives a failed transfer. A command is
      orderly when that unread state is what the code takes it to be. */
  predicate Orderly(s: Store, c: Command) {
    match c
    case VerifyByReference(reference, v, _) =>
      Payments.Confirms(s, reference, v) ==>
        s.orders[s.payments[reference].orderId].status in {AwaitingPayment, Paid}
    case ResolveCommit(ticket) =>
      Disputes.Commits(s, ticket) ==>
        s.orders[ticket.orderId].status in {OrderStatus.Disputed, Disputes.Target(ticket.resolution)}
    case TransferSucceeded(reference) =>
      var i := Transfers.IndexOf(s.transfers, reference);
      i.Some? && s.transfers[i.value].state.TransferFailed? ==>
        Transfers.ActiveCount(s.transfers, s.transfers[i.value].orderId) == 0
    case _ => true
  }

  predicate OrderlyRun(s: Store, run: seq<Command>)
    decreases run
  {
    run == [] || (Orderly(s, run[0]) && OrderlyRun(Step(s, run[0]), run[1..]))
  }

  // ------------------------------------------------ commands refine the moves

  predicate Refines(s: Store, t: Store, id: OrderId)
    requires id in s.orders
  {
    id in t.orders && CaseStep(id, CaseOf(s, id), CaseOf(t, id), s.now)
  }

  lemma FundAppends(s: Store, funded: OrderId, amount: Kobo, reference: LedgerRef,
                    paystackRef: Option<PaymentRef>, paidAt: Option<Time>, id: OrderId)
    requires funded in s.orders && id in s.orders
    ensures
      var t := Escrow.Fund(s, funded, amount, reference, paystackRef, paidAt);
      CaseOf(t, id) ==
      if id != funded then CaseOf(s, id)
      else CaseOf(s, id).(order := Escrow.FundedOrder(s.orders[id], paidAt),
                          rows := Rows(s.ledger, id) + [Escrow.HoldRow(id, amount, reference, paystackRef)])
  {
    RowsSnoc(s.ledger, Escrow.HoldRow(funded, amount, reference, paystackRef), id);
  }

  // Funding commands fund an order or leave it alone.
  predicate FundsOrKeeps(s: Store, t: Store, id: OrderId)
    requires id in s.orders
  {
    id in t.orders && (CaseOf(t, id) == CaseOf(s, id) || Funded(CaseOf(s, id), CaseOf(t, id)))
  }

  lemma HoldRefines(s: Store, held: OrderId, amount: Kobo, reference: LedgerRef,
                    paystackRef: Option<PaymentRef>, oneKoboOver: bool, queueWorks: bool, id: OrderId)
    requires id in s.orders && amount > 0
    ensures FundsOrKeeps(s, Escrow.AfterHold(s, held, amount, reference, paystackRef, oneKoboOver, queueWorks), id)
  {
  }

  lemma CommittedRefines(s: Store, charged: OrderId, reference: PaymentRef, v: Webhook.Verification, id: OrderId)
    requires charged in s.orders && id in s.orders
    requires Webhook.FundingVerdict(s, charged, reference).Funded?
    requires 0 < v.amount && -1 <= v.amount - s.orders[charged].total <= 1 && v.WebhookTime().Some?
    ensures
      var t := Webhook.Committed(s, charged, reference, v, Webhook.Funded);
      id in t.orders &&
      if id == charged then Funded(CaseOf(s, id), CaseOf(t, id)) else CaseOf(t, id) == CaseOf(s, id)
  {
    var order := s.orders[charged];
    var recorded := s.(payments := s.payments[reference := Webhook.SuccessRecord(charged, v)]);
    FundAppends(recorded, charged, v.amount, EscrowFor(reference), Some(reference),
                if order.status == Paid then order.stamps.paid else v.WebhookTime(), id);
  }

  lemma FundedMeans(s: Store, reference: PaymentRef, metadata: Metadata.PaymentMetadata,
                    v: Webhook.Verification, oneKoboOver: bool)
    requires Webhook.ChargeVerdict(s, reference, metadata, v, oneKoboOver).Funded?
    ensures Webhook.Screening(s, reference, metadata, v).None?
    ensures
      var id := Metadata.ExtractedOrderId(metadata).value;
      && Webhook.FundingVerdict(s, id, reference).Funded?
      && 0 < v.amount && -1 <= v.amount - s.orders[id].total <= 1 && v.WebhookTime().Some?
  {
  }

  lemma ChargeRefines(s: Store, reference: PaymentRef, metadata: Metadata.PaymentMetadata,
                      v: Webhook.Verification, oneKoboOver: bool, schedulingWorks: bool, id: OrderId)
    requires id in s.orders
    ensures FundsOrKeeps(s, Webhook.AfterCharge(s, reference, metadata, v, oneKoboOver, schedulingWorks), id)
  {
    var t := Webhook.AfterCharge(s, reference, metadata, v, oneKoboOver, schedulingWorks);
    if Webhook.ChargeVerdict(s, reference, metadata, v, oneKoboOver).Funded? {
      FundedMeans(s, reference, metadata, v, oneKoboOver);
      CommittedRefines(s, Metadata.ExtractedOrderId(metadata).value, reference, v, id);
    } else {
      assert CaseOf(t, id) == CaseOf(s, id);
    }
  }

  lemma ReleaseRefines(s: Store, released: OrderId, trigger: Trigger, id: OrderId)
    requires id in s.orders
    ensures
      var t := Escrow.AfterRelease(s, released, trigger);
      id in t.orders &&
      if id == released && Escrow.ReleaseVerdict(s, id).ReleaseDone?
      then ReleasedStep(id, CaseOf(s, id), CaseOf(t, id).(job := false), s.now)
           && (trigger != ByAutoRelease ==> !CaseOf(t, id).job)
      else CaseOf(t, id) == CaseOf(s, id)
  {
    if Escrow.ReleaseVerdict(s, released).ReleaseDone? {
      var order := s.orders[released];
      var fee := Escrow.FeeRow(order, FindHold(s.ledger, released).value, released, s.now);
      RowsSnoc(s.ledger, fee, id);
      RowsSnoc(s.ledger + [fee], Escrow.ReleaseRow(order, released, s.now), id);
    }
  }

  lemma AutoReleaseRefines(s: Store, released: OrderId, id: OrderId)
    requires id in s.orders
    ensures Refines(s, AutoRelease.AfterAutoRelease(s, released), id)
  {
    ReleaseRefines(s, released, ByAutoRelease, id);
  }

  lemma AdminReleaseRefines(s: Store, released: OrderId, id: OrderId)
    requires id in s.orders
    ensures Refines(s, Escrow.AfterAdminRelease(s, released), id)
  {
    ReleaseRefines(s, released, ByAdmin, id);
  }

  lemma UpdateRefines(s: Store, updated: OrderId, next: OrderStatus, user: User, id: OrderId)
    requires id in s.orders
    ensures Refines(s, Orders.AfterUpdate(s, updated, next, user), id)
  {
    match Orders.UpdateVerdict(s, updated, next, user)
    case ThroughEscrow(_) => ReleaseRefines(s, updated, ByBuyer, id);
    case UpdateNoOrder =>
    case Refused(_) =>
    case _ => AllowedFollowsEdge(s.orders[updated].status, next, Orders.ContextualRole(s.orders[updated], user));
  }

  lemma RefundRefines(s: Store, refunded: OrderId, id: OrderId)
    requires id in s.orders
    ensures Refines(s, Escrow.AfterRefund(s, refunded), id)
  {
    if Escrow.RefundVerdict(s, refunded).RefundDone? {
      RowsSnoc(s.ledger, Escrow.RefundRow(FindHold(s.ledger, refunded).value, refunded, s.now), id);
    }
  }

  lemma VerifyRefines(s: Store, reference: PaymentRef, v: Webhook.Verification, oneKoboOver: bool, id: OrderId)
    requires id in s.orders && Orderly(s, VerifyByReference(reference, v, oneKoboOver))
    ensures Refines(s, Payments.AfterVerify(s, reference, v, oneKoboOver), id)
  {
    if Payments.Confirms(s, reference, v) {
      Payments.PollingHoldDeclines(s, reference, v, oneKoboOver);
    }
  }

  lemma OtherCommandsRefine(s: Store, c: Command, id: OrderId)
    requires id in s.orders && Orderly(s, c)
    requires !c.HoldFunds? && !c.ChargeSuccess? && !c.AutoReleaseJob? && !c.AdminRelease?
    requires !c.UpdateStatus? && !c.RefundFunds? && !c.VerifyByReference?
    ensures Refines(s, Step(s, c), id)
  {
  }

  /** Refinement: whatever an orderly command does to the tables, it does to each
      order one of the moves above, or nothing. */
  lemma OrderlyCommandsRefine(s: Store, c: Command, id: OrderId)
    requires id in s.orders && Orderly(s, c)
    ensures Refines(s, Step(s, c), id)
  {
    match c
    case HoldFunds(held, amount, holdRef, paystackRef, oneKoboOver, queueWorks) =>
      if HoldRequest(c) {
        HoldRefines(s, held, amount, holdRef, paystackRef, oneKoboOver, queueWorks, id);
      }
    case ChargeSuccess(reference, metadata, v, oneKoboOver, schedulingWorks) =>
      ChargeRefines(s, reference, metadata, v, oneKoboOver, schedulingWorks, id);
    case AutoReleaseJob(released) => AutoReleaseRefines(s, released, id);
    case AdminRelease(released) => AdminReleaseRefines(s, released, id);
    case UpdateStatus(updated, next, user) => UpdateRefines(s, updated, next, user, id);
    case RefundFunds(refunded) => RefundRefines(s, refunded, id);
    case VerifyByReference(reference, v, oneKoboOver) => VerifyRefines(s, reference, v, oneKoboOver, id);
    case _ => OtherCommandsRefine(s, c, id);
  }
}
