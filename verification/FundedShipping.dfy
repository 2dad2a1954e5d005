/** When goods ship unpaid: exactly when PAID was entered without the money. */
module FundedShipping {
  import opened Types
  import opened Tables
  import opened OrderStateMachine
  import opened Protocol
  import opened OrderCases
  import opened Invariant
  import opened Safety
  import Escrow
  import Orders
  import Payments
  import Webhook
  import opened Conservation

  // The two ways into PAID that bring no money: by an administrator's hand, and by a poll
  // of a payment that is, or now turns out to be, successful.
  predicate EntersUnpaid(s: Store, c: Command, id: OrderId) {
    && id in s.orders && s.orders[id].status == AwaitingPayment
    && ((c.UpdateStatus? && c.id == id && c.next == Paid && c.user.isAdmin)
        || (c.VerifyByReference? && c.reference in s.payments && s.payments[c.reference].orderId == id
            && (s.payments[c.reference].state.PaymentSuccess? || Payments.Confirms(s, c.reference, c.v))))
  }

  // No command of the run is one of those.
  predicate PaidByMoneyRun(s: Store, run: seq<Command>, id: OrderId)
    decreases run
  {
    run == [] || (!EntersUnpaid(s, run[0], id) && PaidByMoneyRun(Step(s, run[0]), run[1..], id))
  }

  predicate FundedCase(c: Case) {
    && (c.order.status in {Paid, Shipped, InTransit, Delivered} ==>
          c.order.escrow == Holding && Held(c.order, c.rows))
    && (c.order.status in {OrderStatus.Disputed, Completed} ==> c.rows != [])
  }

  predicate FundedAt(s: Store, id: OrderId) {
    id in s.orders ==> FundedCase(CaseOf(s, id))
  }

  lemma FundedCaseKept(id: OrderId, c: Case, d: Case, now: Time)
    requires CaseInv(c, now) && FundedCase(c) && CaseStep(id, c, d, now)
    requires c.order.status != Paid && d.order.status == Paid ==> Held(d.order, d.rows) && d.order.escrow == Holding
    ensures FundedCase(d)
  {
    if MovedByTable(c, d, now) {
      EdgesAre(c.order.status, d.order.status);
    }
  }

  // A funding command that takes an order into PAID has written its hold.
  lemma FundingHolds(s: Store, c: Command, id: OrderId)
    requires CasesInv(s) && id in s.orders && (c.ChargeSuccess? || c.HoldFunds?)
    ensures
      var t := Step(s, c);
      id in t.orders && s.orders[id].status != Paid && t.orders[id].status == Paid ==>
        t.orders[id].escrow == Holding && Held(t.orders[id], Rows(t.ledger, id))
  {
    if c.ChargeSuccess? {
      ChargeRefines(s, c.reference, c.metadata, c.v, c.oneKoboOver, c.schedulingWorks, id);
    } else if HoldRequest(c) {
      HoldRefines(s, c.id, c.amount, c.holdRef, c.paystackRef, c.oneKoboOver, c.queueWorks, id);
    }
    if id in Step(s, c).orders && s.orders[id].status != Paid && Step(s, c).orders[id].status == Paid {
      FundedIsHeld(id, CaseOf(s, id), CaseOf(Step(s, c), id), s.now);
    }
  }

  lemma FundedIsHeld(id: OrderId, c: Case, d: Case, now: Time)
    requires CaseInv(c, now) && (c == d || Funded(c, d)) && c.order.status != Paid && d.order.status == Paid
    ensures d.order.escrow == Holding && Held(d.order, d.rows)
  {
  }

  lemma PaidByHand(order: Order, user: User)
    ensures ValidateTransition(order.status, Paid, Orders.ContextualRole(order, user)).Allowed? <==>
            order.status == AwaitingPayment && user.isAdmin
  {
    assert FindTarget(Edges(AwaitingPayment), Paid) == Some(Edges(AwaitingPayment)[0]);
    FindTargetIffEdge(Edges(order.status), Paid);
  }

  lemma HandEnters(s: Store, updated: OrderId, next: OrderStatus, user: User, id: OrderId)
    requires id in s.orders && s.orders[id].status != Paid
    ensures
      var t := Orders.AfterUpdate(s, updated, next, user);
      id in t.orders && (t.orders[id].status == Paid <==> EntersUnpaid(s, UpdateStatus(updated, next, user), id))
  {
    if updated == id {
      PaidByHand(s.orders[id], user);
    }
  }

  lemma PollEnters(s: Store, reference: PaymentRef, v: Webhook.Verification, oneKoboOver: bool, id: OrderId)
    requires CasesInv(s) && id in s.orders && s.orders[id].status != Paid
    requires Orderly(s, VerifyByReference(reference, v, oneKoboOver))
    ensures
      var t := Payments.AfterVerify(s, reference, v, oneKoboOver);
      id in t.orders
      && (t.orders[id].status == Paid <==> EntersUnpaid(s, VerifyByReference(reference, v, oneKoboOver), id))
  {
    if Payments.Confirms(s, reference, v) {
      Payments.PollingHoldDeclines(s, reference, v, oneKoboOver);
    }
  }

  lemma OthersDoNotEnter(s: Store, c: Command, id: OrderId)
    requires !c.UpdateStatus? && !c.VerifyByReference? && !c.ChargeSuccess? && !c.HoldFunds?
    requires id in s.orders && s.orders[id].status != Paid
    ensures id in Step(s, c).orders && Step(s, c).orders[id].status != Paid
  {
  }

  // Entering PAID without a funding command is exactly EntersUnpaid.
  lemma EntersIff(s: Store, c: Command, id: OrderId)
    requires CasesInv(s) && Orderly(s, c) && id in s.orders && s.orders[id].status != Paid
    ensures
      var t := Step(s, c);
      id in t.orders
      && (EntersUnpaid(s, c, id) <==> t.orders[id].status == Paid && !c.ChargeSuccess? && !c.HoldFunds?)
  {
    if c.UpdateStatus? {
      HandEnters(s, c.id, c.next, c.user, id);
    } else if c.VerifyByReference? {
      PollEnters(s, c.reference, c.v, c.oneKoboOver, id);
    } else if c.ChargeSuccess? || c.HoldFunds? {
      OrderlyCommandsRefine(s, c, id);
    } else {
      OthersDoNotEnter(s, c, id);
    }
  }

  lemma UnpaidHasNoHold(s: Store, c: Command, id: OrderId)
    requires CasesInv(s) && Orderly(s, c) && EntersUnpaid(s, c, id)
    ensures !FundedAt(Step(s, c), id)
  {
    EntersIff(s, c, id);
    OrderlyCommandsRefine(s, c, id);
    assert CaseInv(CaseOf(s, id), s.now);
    UnpaidStepLeavesRows(s, c, id);
  }

  lemma UnpaidStepLeavesRows(s: Store, c: Command, id: OrderId)
    requires EntersUnpaid(s, c, id)
    ensures Step(s, c).ledger == s.ledger
  {
    if c.UpdateStatus? {
      assert Step(s, c) == Orders.AfterUpdate(s, c.id, c.next, c.user);
    } else if Payments.Confirms(s, c.reference, c.v) {
      Payments.PollingHoldDeclines(s, c.reference, c.v, c.oneKoboOver);
    }
  }

  /** The exact condition, for one command: a funded order stays funded if and only if the
      command does not enter PAID by hand or by polling. */
  lemma FundedKeptIffPaidByMoney(s: Store, c: Command, id: OrderId)
    requires CasesInv(s) && Orderly(s, c) && id in s.orders && FundedCase(CaseOf(s, id))
    ensures id in Step(s, c).orders
    ensures FundedCase(CaseOf(Step(s, c), id)) <==> !EntersUnpaid(s, c, id)
  {
    OrderlyCommandsRefine(s, c, id);
    if EntersUnpaid(s, c, id) {
      UnpaidHasNoHold(s, c, id);
    } else {
      if s.orders[id].status != Paid {
        EntersIff(s, c, id);
        if Step(s, c).orders[id].status == Paid {
          FundingHolds(s, c, id);
        }
      }
      FundedCaseKept(id, CaseOf(s, id), CaseOf(Step(s, c), id), s.now);
    }
  }

  // The order is funded in every state the run passes through.
  predicate FundedThroughout(s: Store, run: seq<Command>, id: OrderId)
    decreases run
  {
    FundedAt(s, id) && (run == [] || FundedThroughout(Step(s, run[0]), run[1..], id))
  }

  lemma {:induction false} FundedThroughoutIff(s: Store, run: seq<Command>, id: OrderId)
    requires Inv(s) && OrderlyRun(s, run) && FundedAt(s, id)
    ensures FundedThroughout(s, run, id) <==> PaidByMoneyRun(s, run, id)
    decreases run
  {
    if run != [] {
      var t := Step(s, run[0]);
      OrderlyKeepsInv(s, run[0]);
      if id in s.orders {
        FundedKeptIffPaidByMoney(s, run[0], id);
      } else if id in t.orders {
        OrdersOnlyAppear(s, run[0]);
      }
      if FundedAt(t, id) {
        FundedThroughoutIff(t, run[1..], id);
      }
    }
  }

  lemma {:induction false} ThroughoutAtEnd(s: Store, run: seq<Command>, id: OrderId)
    requires FundedThroughout(s, run, id)
    ensures FundedAt(Run(s, run), id)
    decreases run
  {
    if run != [] {
      ThroughoutAtEnd(Step(s, run[0]), run[1..], id);
    }
  }

  /** The exact condition, for whole histories: goods are paid for in every state of an
      orderly run if and only if none of its commands enters PAID by hand or by polling. */
  lemma NeverUnpaidIff(run: seq<Command>, id: OrderId)
    requires OrderlyRun(EMPTY, run)
    ensures FundedThroughout(EMPTY, run, id) <==> PaidByMoneyRun(EMPTY, run, id)
  {
    assert Inv(EMPTY);
    FundedThroughoutIff(EMPTY, run, id);
  }

  lemma FundedAlongRun(run: seq<Command>, id: OrderId)
    requires OrderlyRun(EMPTY, run) && PaidByMoneyRun(EMPTY, run, id)
    ensures FundedAt(Run(EMPTY, run), id)
  {
    NeverUnpaidIff(run, id);
    ThroughoutAtEnd(EMPTY, run, id);
  }

  /** Whatever the interleaving: while an order is on its way, exactly one hold, within a
      kobo of its price, is in escrow; a disputed or completed order has been paid for;
      and a payout that is due never exceeds what was held for it. */
  lemma GoodsNeverShipUnpaid(run: seq<Command>, id: OrderId)
    requires OrderlyRun(EMPTY, run) && PaidByMoneyRun(EMPTY, run, id) && id in Run(EMPTY, run).orders
    ensures
      var s := Run(EMPTY, run);
      var order, rows := s.orders[id], Rows(s.ledger, id);
      && (order.status in {Paid, Shipped, InTransit, Delivered} ==>
            order.escrow == Holding && |rows| == 1 && rows[0].kind.EscrowHold?
            && -1 <= rows[0].amount - order.total <= 1)
      && (order.status in {OrderStatus.Disputed, Completed} ==> FindHold(s.ledger, id).Some?)
      && (PayoutReady(order) && order.total >= 11 ==>
            order.sellerPayout <= FindHold(s.ledger, id).value.amount)
  {
    FundedAlongRun(run, id);
    assert Inv(EMPTY);
    InvAlongRun(EMPTY, run);
    assert CaseInv(CaseOf(Run(EMPTY, run), id), Run(EMPTY, run).now);
  }

  lemma FundedDeliveryReleases(id: OrderId, c: Case, d: Case, now: Time)
    requires CaseInv(c, now) && FundedCase(c) && CaseStep(id, c, d, now)
    requires c.order.status == Delivered && d.order.status == Completed
    ensures PaidOut(d.order, d.rows)
  {
  }

  /** In such runs an order that goes from DELIVERED to COMPLETED has its release row. */
  lemma DeliveredCompletesByRelease(run: seq<Command>, c: Command, id: OrderId)
    requires OrderlyRun(EMPTY, run) && PaidByMoneyRun(EMPTY, run, id)
    ensures
      var s, t := Run(EMPTY, run), Step(Run(EMPTY, run), c);
      Orderly(s, c) && id in s.orders && s.orders[id].status == Delivered
      && id in t.orders && t.orders[id].status == Completed ==>
        Escrow.CountOf(Rows(t.ledger, id), FullRelease) == 1
        && Escrow.SumOf(Rows(t.ledger, id), FullRelease) == t.orders[id].sellerPayout
  {
    var s := Run(EMPTY, run);
    FundedAlongRun(run, id);
    assert Inv(EMPTY);
    InvAlongRun(EMPTY, run);
    if Orderly(s, c) && id in s.orders && s.orders[id].status == Delivered {
      CompletedStepReleases(s, c, id);
    }
  }

  lemma CompletedStepReleases(s: Store, c: Command, id: OrderId)
    requires CasesInv(s) && Orderly(s, c) && id in s.orders && s.orders[id].status == Delivered
    requires FundedCase(CaseOf(s, id))
    ensures
      var t := Step(s, c);
      id in t.orders && t.orders[id].status == Completed ==>
        Escrow.CountOf(Rows(t.ledger, id), FullRelease) == 1
        && Escrow.SumOf(Rows(t.ledger, id), FullRelease) == t.orders[id].sellerPayout
  {
    OrderlyCommandsRefine(s, c, id);
    if Step(s, c).orders[id].status == Completed {
      FundedDeliveryReleases(id, CaseOf(s, id), CaseOf(Step(s, c), id), s.now);
      Tally(Rows(Step(s, c).ledger, id), FullRelease);
    }
  }
}
