/** The invariant of one order: its amounts, ledger rows, escrow status, dispute, status,
    timestamps and job; every move of an order keeps it. */
module Invariant {
  import opened Types
  import opened Tables
  import opened OrderStateMachine
  import opened Protocol
  import opened OrderCases
  import Orders

  // --------------------------------------------------------- money of an order

  predicate Held(order: Order, rows: seq<LedgerRow>) {
    |rows| == 1 && IsHold(order, rows[0])
  }

  predicate PaidOut(order: Order, rows: seq<LedgerRow>) {
    && |rows| == 3 && IsHold(order, rows[0])
    && rows[1].kind.PlatformFee? && rows[1].amount == rows[0].amount - order.sellerPayout
    && rows[2].kind.FullRelease? && rows[2].amount == order.sellerPayout
  }

  predicate PaidBack(order: Order, rows: seq<LedgerRow>) {
    && |rows| == 2 && IsHold(order, rows[0])
    && rows[1].kind.Refund? && rows[1].amount == rows[0].amount
  }

  predicate AmountsInv(order: Order) {
    && order.itemPrice > 0 && order.deliveryFee >= 0
    && order.total == order.itemPrice + order.deliveryFee <= Orders.MAX_DECIMAL
    && -10 <= 20 * order.platformFee - order.total <= 10
    && 0 <= order.platformFee && 0 <= order.sellerPayout
    && order.platformFee + order.sellerPayout == order.total
    && 0 <= order.riderPayout <= order.deliveryFee
  }

  // Which ledger rows, dispute and status go with each escrow status.
  predicate EscrowInv(c: Case) {
    var status := c.order.status;
    match c.order.escrow
    case Pending => c.rows == [] && c.dispute.None?
    case Holding =>
      && Held(c.order, c.rows) && c.dispute.None?
      && status in {Paid, Shipped, InTransit, Delivered, OrderStatus.Disputed, OrderStatus.Refunded}
    case Disputed =>
      && (c.rows == [] || Held(c.order, c.rows))
      && c.dispute.Some? && c.dispute.value.state.Open?
      && status in {OrderStatus.Disputed, Completed, OrderStatus.Refunded}
    case Released =>
      && status == Completed
      && ((PaidOut(c.order, c.rows) && c.dispute.None?)
          || ((c.rows == [] || Held(c.order, c.rows))
              && c.dispute.Some? && c.dispute.value.state == Resolved(ForSeller)))
    case Refunded =>
      && status == OrderStatus.Refunded
      && ((PaidBack(c.order, c.rows) && (c.dispute.Some? ==> c.dispute.value.state in {Open, Resolved(ForBuyer)}))
          || ((c.rows == [] || Held(c.order, c.rows))
              && c.dispute.Some? && c.dispute.value.state == Resolved(ForBuyer)))
    case PartiallyReleased => false
  }

  // ---------------------------------------------------- timestamps of an order

  predicate NotAfter(earlier: Option<Time>, later: Option<Time>) {
    later.Some? ==> earlier.Some? && earlier.value <= later.value
  }

  predicate StampsInv(order: Order, now: Time) {
    var status, t := order.status, order.stamps;
    var travelled := {OrderStatus.Disputed, Completed, OrderStatus.Refunded};
    && status != Draft
    && (t.shipped.Some? ==> status in {Shipped, InTransit, Delivered} + travelled)
    && (t.pickedUp.Some? ==> status in {InTransit, Delivered} + travelled)
    && (t.delivered.Some? ==> status in {Delivered} + travelled)
    && (t.disputed.Some? ==> status in travelled)
    && (t.completed.Some? <==> status == Completed)
    && (t.cancelled.Some? <==> status == Cancelled)
    && (t.refunded.Some? <==> status == OrderStatus.Refunded)
    && (status == Shipped ==> t.shipped.Some?)
    && (status == InTransit ==> t.pickedUp.Some?)
    && (status in {Delivered, Completed} ==> t.delivered.Some?)
    && (status == OrderStatus.Disputed ==> t.disputed.Some?)
    && (status in {Paid, Shipped, InTransit, Delivered, OrderStatus.Disputed, Completed} ==> t.paid.Some?)
    && NotAfter(t.shipped, t.pickedUp) && NotAfter(t.pickedUp, t.delivered)
    && NotAfter(t.delivered, t.disputed) && NotAfter(t.delivered, t.completed)
    && (t.disputed.Some? ==> (t.completed.Some? ==> t.disputed.value <= t.completed.value)
                             && (t.refunded.Some? ==> t.disputed.value <= t.refunded.value))
    && (t.shipped.Some? ==> t.shipped.value <= now) && (t.pickedUp.Some? ==> t.pickedUp.value <= now)
    && (t.delivered.Some? ==> t.delivered.value <= now) && (t.disputed.Some? ==> t.disputed.value <= now)
    && (t.completed.Some? ==> t.completed.value <= now) && (t.refunded.Some? ==> t.refunded.value <= now)
  }

  predicate CaseInv(c: Case, now: Time) {
    && AmountsInv(c.order)
    && EscrowInv(c)
    && StampsInv(c.order, now)
    && (c.job ==> Held(c.order, c.rows))
  }

  lemma MoveKeepsStamps(order: Order, next: OrderStatus, now: Time)
    requires StampsInv(order, now) && HasEdge(order.status, next)
    ensures StampsInv(Orders.MovedOrder(order, next, now), now)
  {
    EdgesAre(order.status, next);
  }

  lemma MoveKeepsEscrow(c: Case, next: OrderStatus, now: Time)
    requires EscrowInv(c) && HasEdge(c.order.status, next) && (next == Completed ==> c.order.escrow != Holding)
    ensures EscrowInv(c.(order := Orders.MovedOrder(c.order, next, now)))
  {
    EdgesAre(c.order.status, next);
  }

  lemma MovedByTableKeeps(c: Case, d: Case, now: Time)
    requires CaseInv(c, now) && MovedByTable(c, d, now)
    ensures CaseInv(d, now)
  {
    MoveKeepsStamps(c.order, d.order.status, now);
    MoveKeepsEscrow(c, d.order.status, now);
  }

  lemma MoneyMovesKeep(id: OrderId, c: Case, d: Case, now: Time)
    requires CaseInv(c, now)
    requires Funded(c, d) || ReleasedStep(id, c, d, now) || RefundedStep(id, c, d, now)
    ensures CaseInv(d, now)
  {
  }

  lemma DisputeMovesKeep(c: Case, d: Case, now: Time)
    requires CaseInv(c, now) && (DisputeRaised(c, d, now) || DisputeResolved(c, d, now))
    ensures CaseInv(d, now)
  {
  }

  lemma CaseStepKeeps(id: OrderId, c: Case, d: Case, now: Time)
    requires CaseInv(c, now) && CaseStep(id, c, d, now)
    ensures CaseInv(d, now)
  {
    if MovedByTable(c, d, now) {
      MovedByTableKeeps(c, d, now);
    } else if Funded(c, d) || ReleasedStep(id, c, d, now) || RefundedStep(id, c, d, now) {
      MoneyMovesKeep(id, c, d, now);
    } else if DisputeRaised(c, d, now) || DisputeResolved(c, d, now) {
      DisputeMovesKeep(c, d, now);
    }
  }

  lemma CaseInvLater(c: Case, now: Time, later: Time)
    requires CaseInv(c, now) && now <= later
    ensures CaseInv(c, later)
  {
  }

  // ------------------------------------------------------- consequences of a move

  predicate SameTerms(order: Order, next: Order) {
    && next.seller == order.seller && next.buyerEmail == order.buyerEmail
    && next.itemPrice == order.itemPrice && next.deliveryFee == order.deliveryFee
    && next.total == order.total && next.platformFee == order.platformFee
    && next.sellerPayout == order.sellerPayout && next.riderPayout == order.riderPayout
  }

  predicate PayoutReady(order: Order) {
    order.status == Completed && order.escrow == Released
  }

  lemma CaseStepFollowsTable(id: OrderId, c: Case, d: Case, now: Time)
    requires CaseInv(c, now) && CaseStep(id, c, d, now)
    ensures d.order.status == c.order.status || HasEdge(c.order.status, d.order.status)
  {
    assert Edges(PendingBuyer)[0].to == AwaitingPayment && Edges(AwaitingPayment)[0].to == Paid;
    assert Edges(Delivered)[0].to == Completed && Edges(Delivered)[1].to == OrderStatus.Disputed;
    assert Edges(OrderStatus.Disputed)[0].to == Completed && Edges(OrderStatus.Disputed)[1].to == OrderStatus.Refunded;
  }

  lemma CaseStepFacts(id: OrderId, c: Case, d: Case, now: Time)
    requires CaseInv(c, now) && CaseStep(id, c, d, now)
    ensures Rank(c.order.status) <= Rank(d.order.status)
    ensures SameTerms(c.order, d.order)
    ensures PayoutReady(c.order) ==> PayoutReady(d.order)
  {
    CaseStepFollowsTable(id, c, d, now);
    if d.order.status != c.order.status {
      EdgesRaiseRank(c.order.status, d.order.status);
    }
  }

  lemma CaseStepAbsorbs(id: OrderId, c: Case, d: Case, now: Time)
    requires CaseInv(c, now) && CaseStep(id, c, d, now) && Terminal(c.order.status)
    ensures d.order.status == c.order.status && d.rows == c.rows
  {
    CaseStepFollowsTable(id, c, d, now);
  }
}
