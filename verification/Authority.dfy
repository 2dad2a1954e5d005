/** Who can move the money of an order. */
module Authority {
  import opened Types
  import opened Tables
  import opened OrderStateMachine
  import opened Protocol
  import opened OrderCases
  import opened Safety
  import AutoRelease
  import Escrow
  import Metadata
  import Orders
  import Webhook

  // A payment for the order: a hold that is asked for, or a delivery that names the order.
  predicate Funds(s: Store, c: Command, id: OrderId)
    requires id in s.orders
  {
    || (c.HoldFunds? && c.id == id && s.orders[id].status == AwaitingPayment)
    || (c.ChargeSuccess? && Metadata.ExtractedOrderId(c.metadata) == Some(id)
        && s.orders[id].status in {AwaitingPayment, Paid})
  }

  // The buyer of somebody else's goods, an administrator, or the queue.
  predicate Releases(s: Store, c: Command, id: OrderId)
    requires id in s.orders
  {
    var order := s.orders[id];
    || c == AutoReleaseJob(id)
    || (c == AdminRelease(id) && order.status == Delivered)
    || (c.UpdateStatus? && c.id == id && c.next == Completed && order.status == Delivered
        && MayComplete(order, c.user))
  }

  predicate MayComplete(order: Order, user: User) {
    user.isAdmin || (order.buyer == Some(user.id) && order.seller != user.id)
  }

  lemma CompletedBy(order: Order, user: User)
    requires order.status == Delivered
    ensures ValidateTransition(Delivered, Completed, Orders.ContextualRole(order, user)).Allowed? <==>
            MayComplete(order, user)
  {
    assert FindTarget(Edges(Delivered), Completed) == Some(Edges(Delivered)[0]);
  }

  lemma UpdateReleases(s: Store, updated: OrderId, next: OrderStatus, user: User, id: OrderId)
    requires id in s.orders
    ensures Rows(Orders.AfterUpdate(s, updated, next, user).ledger, id) != Rows(s.ledger, id) ==>
      updated == id && next == Completed && s.orders[id].status == Delivered && MayComplete(s.orders[id], user)
  {
    if Orders.UpdateVerdict(s, updated, next, user).ThroughEscrow? {
      ReleaseRefines(s, updated, ByBuyer, id);
      assert s.orders[updated].status != Completed;
      if s.orders[updated].status == Delivered {
        CompletedBy(s.orders[updated], user);
      }
    }
  }

  lemma HoldFundsItsOrder(s: Store, held: OrderId, amount: Kobo, reference: LedgerRef,
                          paystackRef: Option<PaymentRef>, oneKoboOver: bool, queueWorks: bool, id: OrderId)
    requires id in s.orders
    ensures Rows(Escrow.AfterHold(s, held, amount, reference, paystackRef, oneKoboOver, queueWorks).ledger, id)
              != Rows(s.ledger, id) ==>
      held == id && s.orders[id].status == AwaitingPayment
  {
    RowsSnoc(s.ledger, Escrow.HoldRow(held, amount, reference, paystackRef), id);
  }

  lemma ChargeFundsItsOrder(s: Store, reference: PaymentRef, metadata: Metadata.PaymentMetadata,
                            v: Webhook.Verification, oneKoboOver: bool, schedulingWorks: bool, id: OrderId)
    requires id in s.orders
    ensures Rows(Webhook.AfterCharge(s, reference, metadata, v, oneKoboOver, schedulingWorks).ledger, id)
              != Rows(s.ledger, id) ==>
      Metadata.ExtractedOrderId(metadata) == Some(id) && s.orders[id].status in {AwaitingPayment, Paid}
  {
    if Webhook.ChargeVerdict(s, reference, metadata, v, oneKoboOver).Funded? {
      FundedMeans(s, reference, metadata, v, oneKoboOver);
      var funded := Metadata.ExtractedOrderId(metadata).value;
      RowsSnoc(s.ledger, Escrow.HoldRow(funded, v.amount, EscrowFor(reference), Some(reference)), id);
    }
  }

  lemma AdminReleaseTouches(s: Store, other: OrderId, id: OrderId)
    requires id in s.orders
    ensures Rows(Escrow.AfterAdminRelease(s, other).ledger, id) != Rows(s.ledger, id) ==>
      other == id && s.orders[id].status == Delivered
  {
    ReleaseRefines(s, other, ByAdmin, id);
  }

  lemma JobTouches(s: Store, other: OrderId, id: OrderId)
    requires id in s.orders
    ensures Rows(AutoRelease.AfterAutoRelease(s, other).ledger, id) != Rows(s.ledger, id) ==> other == id
  {
    ReleaseRefines(s, other, ByAutoRelease, id);
  }

  lemma RefundTouches(s: Store, other: OrderId, id: OrderId)
    requires id in s.orders
    ensures Rows(Escrow.AfterRefund(s, other).ledger, id) != Rows(s.ledger, id) ==>
      other == id && s.orders[id].status == OrderStatus.Disputed
  {
    if Escrow.RefundVerdict(s, other).RefundDone? {
      RowsSnoc(s.ledger, Escrow.RefundRow(FindHold(s.ledger, other).value, other, s.now), id);
    }
  }

  predicate ByRight(s: Store, c: Command, id: OrderId)
    requires id in s.orders
  {
    Funds(s, c, id) || Releases(s, c, id) || (c == RefundFunds(id) && s.orders[id].status == OrderStatus.Disputed)
  }

  lemma EscrowByRight(s: Store, c: Command, id: OrderId)
    requires EscrowCommand(c) && id in s.orders
    ensures Rows(EscrowStep(s, c).ledger, id) != Rows(s.ledger, id) ==> ByRight(s, c, id)
  {
    match c
    case HoldFunds(held, amount, holdRef, paystackRef, oneKoboOver, queueWorks) =>
      HoldFundsItsOrder(s, held, amount, holdRef, paystackRef, oneKoboOver, queueWorks, id);
    case AutoReleaseJob(other) => JobTouches(s, other, id);
    case AdminRelease(other) => AdminReleaseTouches(s, other, id);
    case RefundFunds(other) => RefundTouches(s, other, id);
  }

  /** In any state of the tables, an order's ledger rows change only by a payment for that
      order, by a release that its buyer, an administrator or its own job makes, or by a
      refund of that order while it is disputed. A status change by the seller, the rider, a
      stranger, or a buyer who is also the seller never moves money. */
  lemma MoneyMovesOnlyByRight(s: Store, c: Command, id: OrderId)
    requires id in s.orders
    ensures Rows(Step(s, c).ledger, id) != Rows(s.ledger, id) ==> ByRight(s, c, id)
  {
    if EscrowCommand(c) {
      EscrowByRight(s, c, id);
    } else if c.UpdateStatus? {
      UpdateReleases(s, c.id, c.next, c.user, id);
    } else if c.ChargeSuccess? {
      ChargeFundsItsOrder(s, c.reference, c.metadata, c.v, c.oneKoboOver, c.schedulingWorks, id);
    } else {
      LedgerUntouched(s, c);
    }
  }
}
