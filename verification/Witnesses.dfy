/** Reachable states from which the runs of Findings start, so that none of them is vacuous. */
module Witnesses {
  import opened Types
  import opened Tables
  import opened OrderStateMachine
  import opened Protocol
  import opened OrderCases
  import opened Safety
  import opened Invariant
  import Blocking
  import Findings
  import LedgerIdentity
  import Payouts
  import Progress
  import Scheduling
  import Escrow
  import Orders
  import Payments
  import Disputes
  import Transfers
  import Webhook
  import Metadata

  lemma {:induction false} OrderlyAppend(s: Store, first: seq<Command>, c: Command)
    requires OrderlyRun(s, first) && Orderly(Run(s, first), c)
    ensures OrderlyRun(s, first + [c])
    decreases first
  {
    if first == [] {
      assert first + [c] == [c] && [c][1..] == [];
    } else {
      assert (first + [c])[1..] == first[1..] + [c];
      OrderlyAppend(Step(s, first[0]), first[1..], c);
    }
  }

  lemma ReachableThen(s: Store, c: Command)
    requires Reachable(s) && Orderly(s, c)
    ensures Reachable(Step(s, c))
  {
    var run :| OrderlyRun(EMPTY, run) && Run(EMPTY, run) == s;
    OrderlyAppend(EMPTY, run, c);
    RunAppend(EMPTY, run, [c]);
    RunCons(s, c, []);
    assert [c] + [] == [c];
  }

  // ------------------------------------------------------- one order, agreed

  const ID: OrderId := "order"
  const BUYER := User("buyer", "buyer@example.com", false)
  const ADMIN := User("admin", "admin@example.com", true)
  const PAYMENT: PaymentRef := "EW-PAY-1"

  function Offered(): Order {
    Orders.NewOrder("seller", BUYER.email, 100_000, 0, false, false, 0)
  }

  function Agreed(): Order {
    Orders.ConfirmedOrder(Offered(), BUYER.id, 0)
  }

  const AWAITING := EMPTY.(
    orders := map[ID := Agreed()],
    payments := map[PAYMENT := Payment(ID, 100_000, PaymentPending, None)])

  lemma OfferedIsReachable()
    ensures Reachable(EMPTY.(orders := map[ID := Offered()]))
  {
    assert OrderlyRun(EMPTY, []) && Run(EMPTY, []) == EMPTY;
    var create := Create(ID, "seller", BUYER.email, 100_000, 0, false, false, true, true);
    ReachableThen(EMPTY, create);
    assert Step(EMPTY, create).orders == map[ID := Offered()];
  }

  lemma AgreedIsReachable()
    ensures Reachable(EMPTY.(orders := map[ID := Agreed()]))
  {
    OfferedIsReachable();
    var offered := EMPTY.(orders := map[ID := Offered()]);
    ReachableThen(offered, ConfirmByBuyer(ID, BUYER));
    assert Step(offered, ConfirmByBuyer(ID, BUYER)).orders == map[ID := Agreed()];
  }

  lemma AwaitingIsReachable()
    ensures Reachable(AWAITING)
  {
    AgreedIsReachable();
    var agreed := EMPTY.(orders := map[ID := Agreed()]);
    ReachableThen(agreed, InitiatePayment(ID, BUYER, PAYMENT, true));
    assert Step(agreed, InitiatePayment(ID, BUYER, PAYMENT, true)) == AWAITING;
  }

  lemma MovedIsReachable(s: Store, id: OrderId, next: OrderStatus, admin: User)
    requires Reachable(s) && id in s.orders && admin.isAdmin
    requires (s.orders[id].status, next) in {(Paid, Shipped), (Shipped, InTransit), (InTransit, Delivered)}
    ensures Reachable(s.(orders := s.orders[id := Orders.MovedOrder(s.orders[id], next, s.now)]))
  {
    AdminMoves(s, id, next, admin);
    ReachableThen(s, UpdateStatus(id, next, admin));
  }

  lemma CarriedIsReachable(s: Store, id: OrderId, admin: User)
    requires Reachable(s) && id in s.orders && s.orders[id].status == Paid && admin.isAdmin
    ensures Reachable(s.(orders := s.orders[id := Findings.Carried(s.orders[id], s.now)]))
  {
    var a := s.(orders := s.orders[id := Orders.MovedOrder(s.orders[id], Shipped, s.now)]);
    var b := a.(orders := a.orders[id := Orders.MovedOrder(a.orders[id], InTransit, s.now)]);
    MovedIsReachable(s, id, Shipped, admin);
    MovedIsReachable(a, id, InTransit, admin);
    MovedIsReachable(b, id, Delivered, admin);
    assert b.orders[id := Orders.MovedOrder(b.orders[id], Delivered, s.now)] ==
           s.orders[id := Findings.Carried(s.orders[id], s.now)];
  }

  // ------------------------------------------ moved to PAID by hand, unfunded

  const UNFUNDED := AWAITING.(orders := AWAITING.orders[ID := Orders.MovedOrder(Agreed(), Paid, 0)])

  lemma UnfundedIsReachable()
    ensures Reachable(UNFUNDED) && Rows(UNFUNDED.ledger, ID) == []
    ensures ID in UNFUNDED.orders && UNFUNDED.orders[ID].status == Paid
    ensures UNFUNDED.orders[ID].buyer == Some(BUYER.id) && ID !in UNFUNDED.disputes
    ensures Transfers.ActiveCount(UNFUNDED.transfers, ID) == 0
  {
    AwaitingIsReachable();
    assert FindTarget(Edges(AwaitingPayment), Paid).Some?;
    ReachableThen(AWAITING, UpdateStatus(ID, Paid, ADMIN));
    assert Step(AWAITING, UpdateStatus(ID, Paid, ADMIN)) == UNFUNDED;
  }

  // ------------------------------------------------- funded and delivered

  const HOLD := Escrow.HoldRow(ID, 100_000, ByCaller("hold"), None)

  const HELD := AWAITING.(
    orders := AWAITING.orders[ID := Escrow.FundedOrder(Agreed(), Some(0))],
    ledger := [HOLD], audit := [Escrow.HoldAudit(ID, 100_000, ByCaller("hold"), None)], jobs := {ID})

  const DELIVERED := HELD.(orders := HELD.orders[ID := Findings.Carried(HELD.orders[ID], 0)])

  lemma HeldIsReachable()
    ensures Reachable(HELD)
  {
    AwaitingIsReachable();
    var hold := HoldFunds(ID, 100_000, ByCaller("hold"), None, false, true);
    ReachableThen(AWAITING, hold);
    assert Rows(AWAITING.ledger, ID) == [];
    assert Escrow.HoldVerdict(AWAITING, ID, 100_000, ByCaller("hold"), false).Held?;
    var t := Escrow.AfterHold(AWAITING, ID, 100_000, ByCaller("hold"), None, false, true);
    assert t.ledger == [HOLD] && t.jobs == {ID};
    assert Step(AWAITING, hold) == t;
    assert t == HELD;
  }

  lemma HoldIsFound()
    ensures Rows([HOLD], ID) == [HOLD]
    ensures FindHold([HOLD], ID) == Some(HOLD)
  {
    RowsSnoc([], HOLD, ID);
    assert [] + [HOLD] == [HOLD];
  }

  lemma DeliveredIsReachable()
    ensures Reachable(DELIVERED)
    ensures DELIVERED.orders[ID].status == Delivered && DELIVERED.orders[ID].escrow == Holding
    ensures FindHold(DELIVERED.ledger, ID) == Some(HOLD)
  {
    HeldIsReachable();
    CarriedIsReachable(HELD, ID, ADMIN);
    HoldIsFound();
  }

  // ------------------------------------- paid out, with a record still pending

  const PAID_OUT := Escrow.AfterRelease(DELIVERED, ID, ByAdmin)

  const LATE: Webhook.Verification :=
    Webhook.Verification("success", PAYMENT, Metadata.NotAnObject, 100_000, "NGN", Webhook.At(0))

  lemma PaidOutIsReachable()
    ensures Reachable(PAID_OUT)
    ensures ID in PAID_OUT.orders && PAID_OUT.orders[ID].status == Completed && PAID_OUT.orders[ID].escrow == Released
    ensures PAID_OUT.ledger == [HOLD] + [Escrow.FeeRow(DELIVERED.orders[ID], HOLD, ID, 0)]
                               + [Escrow.ReleaseRow(DELIVERED.orders[ID], ID, 0)]
    ensures PAID_OUT.transfers == [] && PAID_OUT.payments == AWAITING.payments
  {
    DeliveredIsReachable();
    assert Escrow.AdminReleaseVerdict(DELIVERED, ID).Delegated?;
    ReachableThen(DELIVERED, AdminRelease(ID));
    assert Step(DELIVERED, AdminRelease(ID)) == PAID_OUT;
  }

  lemma ThreeRows(fee: LedgerRow, paid: LedgerRow)
    requires fee.orderId == ID && paid.orderId == ID
    ensures |Rows([HOLD] + [fee] + [paid], ID)| == 3
  {
    HoldIsFound();
    RowsSnoc([HOLD], fee, ID);
    RowsSnoc([HOLD] + [fee], paid, ID);
  }

  lemma PaidOutBuyer()
    ensures ID in PAID_OUT.orders && PAID_OUT.orders[ID].buyer == Some(BUYER.id)
    ensures Payments.Confirms(PAID_OUT, PAYMENT, LATE) && PAID_OUT.payments[PAYMENT].orderId == ID
  {
  }

  /** The hypotheses of LatePollPaysTwice hold together in a reachable state. */
  lemma LatePollIsPossible()
    ensures Reachable(PAID_OUT) && Payments.Confirms(PAID_OUT, PAYMENT, LATE)
    ensures PAID_OUT.payments[PAYMENT].orderId == ID && ID in PAID_OUT.orders
    ensures PAID_OUT.orders[ID].status == Completed && |Rows(PAID_OUT.ledger, ID)| == 3
    ensures PAID_OUT.orders[ID].buyer == Some(BUYER.id)
  {
    PaidOutIsReachable();
    PaidOutBuyer();
    ThreeRows(Escrow.FeeRow(DELIVERED.orders[ID], HOLD, ID, 0), Escrow.ReleaseRow(DELIVERED.orders[ID], ID, 0));
  }

  // ------------------------------------------- a payout fails and is retried

  const FIRST := Transfer(ID, "EW-TRF-1", 95_000, TransferPending)
  const SECOND := Transfer(ID, "EW-TRF-2", 95_000, TransferPending)
  const RETRIED := PAID_OUT.(transfers := [FIRST.(state := TransferFailed), SECOND])

  const FIRST_PENDING := PAID_OUT.(transfers := [FIRST])
  const FIRST_FAILED := PAID_OUT.(transfers := [FIRST.(state := TransferFailed)])

  lemma FailedIsInactive()
    ensures Transfers.ActiveCount([FIRST.(state := TransferFailed)], ID) == 0
    ensures Transfers.IndexOf([FIRST.(state := TransferFailed)], "EW-TRF-2").None?
    ensures Transfers.IndexOf([FIRST], "EW-TRF-1") == Some(0)
    ensures [FIRST.(state := TransferFailed)] + [SECOND] == [FIRST.(state := TransferFailed), SECOND]
  {
  }

  lemma PayoutOf()
    ensures ID in PAID_OUT.orders && PAID_OUT.orders[ID].sellerPayout == 95_000
  {
  }

  lemma OpensPayout(s: Store, reference: PaymentRef)
    requires ID in s.orders && s.orders[ID].status == Completed && s.orders[ID].escrow == Released
    requires Transfers.ActiveCount(s.transfers, ID) == 0 && Transfers.IndexOf(s.transfers, reference).None?
    ensures Transfers.AfterTransfer(s, ID, reference, true) ==
            s.(transfers := s.transfers + [Transfer(ID, reference, s.orders[ID].sellerPayout, TransferPending)])
  {
  }

  lemma FirstTransfer()
    ensures Transfers.AfterTransfer(PAID_OUT, ID, "EW-TRF-1", true) == FIRST_PENDING
  {
    PaidOutIsReachable();
    PayoutOf();
    NoneYet();
    OpensPayout(PAID_OUT, "EW-TRF-1");
  }

  lemma NoneYet()
    ensures Transfers.ActiveCount([], ID) == 0 && Transfers.IndexOf([], "EW-TRF-1").None?
    ensures [] + [FIRST] == [FIRST]
  {
  }

  lemma FirstFails()
    ensures Transfers.AfterTransferState(FIRST_PENDING, "EW-TRF-1", TransferFailed) == FIRST_FAILED
  {
    FailedIsInactive();
    assert [FIRST][0 := FIRST.(state := TransferFailed)] == [FIRST.(state := TransferFailed)];
  }

  lemma SecondTransfer()
    ensures Transfers.AfterTransfer(FIRST_FAILED, ID, "EW-TRF-2", true) == RETRIED
  {
    PaidOutIsReachable();
    PayoutOf();
    FailedIsInactive();
    OpensPayout(FIRST_FAILED, "EW-TRF-2");
  }

  lemma RetriedIsReachable()
    ensures Reachable(RETRIED)
  {
    PaidOutIsReachable();
    FirstTransfer();
    FirstFails();
    SecondTransfer();
    Opened(PAID_OUT, "EW-TRF-1");
    Failed(FIRST_PENDING, "EW-TRF-1");
    Opened(FIRST_FAILED, "EW-TRF-2");
  }

  lemma Opened(s: Store, reference: PaymentRef)
    requires Reachable(s)
    ensures Reachable(Transfers.AfterTransfer(s, ID, reference, true))
  {
    ReachableThen(s, InitiateTransfer(ID, reference, true));
  }

  lemma Failed(s: Store, reference: PaymentRef)
    requires Reachable(s)
    ensures Reachable(Transfers.AfterTransferState(s, reference, TransferFailed))
  {
    ReachableThen(s, TransferFailedOrReversed(reference));
  }

  /** A reachable state from which a late transfer.success leaves two active payouts. */
  lemma RevivalIsPossible()
    ensures Reachable(RETRIED) && !Orderly(RETRIED, TransferSucceeded("EW-TRF-1"))
    ensures Transfers.ActiveCount(Step(RETRIED, TransferSucceeded("EW-TRF-1")).transfers, ID) == 2
  {
    RetriedIsReachable();
    RetriedCounts();
    Payouts.RevivedCount(RETRIED, "EW-TRF-1", ID);
  }

  lemma RetriedCounts()
    ensures Transfers.ActiveCount(RETRIED.transfers, ID) == 1
    ensures Transfers.IndexOf(RETRIED.transfers, "EW-TRF-1") == Some(0)
  {
    FailedIsInactive();
    var all := RETRIED.transfers;
    assert all[..1] == [FIRST.(state := TransferFailed)];
    assert all[1].reference == "EW-TRF-2" && "EW-TRF-1"[7] != "EW-TRF-2"[7];
  }

  // ------------------------------------------ a decision read but not committed

  const TICKET := Ticket(7, ID, ADMIN.id, ForSeller)

  const DISPUTED := DELIVERED.(
    orders := DELIVERED.orders[ID := Disputes.DisputedOrder(DELIVERED.orders[ID], 0)],
    disputes := map[ID := Dispute(BUYER.id, Open, None)],
    disputeEvents := [RaisedEvent(ID, BUYER.id)])

  const UNDECIDED := DISPUTED.(resolving := {TICKET})

  lemma UndecidedState()
    ensures ID in UNDECIDED.orders && Disputes.Commits(UNDECIDED, TICKET)
    ensures Escrow.RefundVerdict(UNDECIDED, ID).RefundDone?
    ensures Transfers.ActiveCount(UNDECIDED.transfers, ID) == 0
  {
    HoldIsFound();
  }

  lemma StaleAfterRefund()
    ensures !Orderly(Escrow.AfterRefund(UNDECIDED, ID), ResolveCommit(TICKET))
  {
    UndecidedState();
  }

  /** The hypotheses of StaleCommitPaysTwice hold together in a reachable state. */
  lemma StaleCommitIsPossible()
    ensures Reachable(UNDECIDED) && TICKET in UNDECIDED.resolving && TICKET.orderId == ID
    ensures Disputes.Commits(UNDECIDED, TICKET) && Escrow.RefundVerdict(UNDECIDED, ID).RefundDone?
    ensures Transfers.ActiveCount(UNDECIDED.transfers, ID) == 0
    ensures !Orderly(Escrow.AfterRefund(UNDECIDED, ID), ResolveCommit(TICKET))
  {
    DeliveredIsReachable();
    DisputedByBuyer();
    Raised(DELIVERED);
    Read(DISPUTED);
    UndecidedState();
    StaleAfterRefund();
  }

  // The decision committed, and the payout opened.
  const AWARDED := Disputes.AfterResolveCommit(UNDECIDED, TICKET)

  lemma AwardedState()
    ensures ID in AWARDED.orders && PayoutReady(AWARDED.orders[ID]) && ID in AWARDED.disputes
    ensures AWARDED.transfers == [] && AWARDED.ledger == [HOLD]
    ensures Orderly(UNDECIDED, ResolveCommit(TICKET))
    ensures Step(UNDECIDED, ResolveCommit(TICKET)) == AWARDED
  {
  }

  /** A funded order decided for the seller: its payout is opened, the summary still counts
      its hold, and the ledger has no release for it. */
  lemma UnrecordedPayoutIsPossible()
    ensures
      var paid := Transfers.AfterTransfer(AWARDED, ID, "EW-TRF-1", true);
      && Reachable(paid) && Transfers.ActiveCount(paid.transfers, ID) == 1
      && Rows(paid.ledger, ID) == [HOLD] && LedgerIdentity.OpenHolds(paid.ledger, paid.ledger) == HOLD.amount
  {
    StaleCommitIsPossible();
    AwardedState();
    ReachableThen(UNDECIDED, ResolveCommit(TICKET));
    Opened(AWARDED, "EW-TRF-1");
    NoneYet();
    OpensPayout(AWARDED, "EW-TRF-1");
    OneTransfer(Transfer(ID, "EW-TRF-1", AWARDED.orders[ID].sellerPayout, TransferPending));
    HoldIsOpen();
  }

  lemma OneTransfer(t: Transfer)
    requires t.orderId == ID && Transfers.Active(t)
    ensures Transfers.ActiveCount([] + [t], ID) == 1
  {
    CountSnoc([], t, ID);
  }

  lemma HoldIsOpen()
    ensures Rows([HOLD], ID) == [HOLD] && LedgerIdentity.OpenHolds([HOLD], [HOLD]) == HOLD.amount
  {
    HoldIsFound();
    var one := [HOLD];
    assert one[..0] == [];
    assert LedgerIdentity.OpenHolds(one[..|one| - 1], [HOLD]) == 0;
    assert !LedgerIdentity.Settled([HOLD], ID);
  }

  lemma DisputedByBuyer()
    ensures Disputes.AfterRaise(DELIVERED, ID, BUYER) == DISPUTED
    ensures Disputes.AfterResolveRead(DISPUTED, 7, ID, ADMIN, ForSeller) == UNDECIDED
  {
    assert DELIVERED.disputes[ID := Dispute(BUYER.id, Open, None)] == map[ID := Dispute(BUYER.id, Open, None)];
    assert DISPUTED.resolving + {TICKET} == {TICKET};
  }

  lemma Raised(s: Store)
    requires Reachable(s)
    ensures Reachable(Disputes.AfterRaise(s, ID, BUYER))
  {
    ReachableThen(s, Command.RaiseDispute(ID, BUYER));
  }

  lemma Read(s: Store)
    requires Reachable(s)
    ensures Reachable(Disputes.AfterResolveRead(s, 7, ID, ADMIN, ForSeller))
  {
    ReachableThen(s, ResolveRead(7, ID, ADMIN, ForSeller));
  }
  // ----------------------------------- a hold that no orderly run can settle

  const CANCELLED := HELD.(orders := HELD.orders[ID := Orders.MovedOrder(HELD.orders[ID], OrderStatus.Refunded, 0)])

  lemma CancelledByAdmin()
    ensures Orders.AfterUpdate(HELD, ID, OrderStatus.Refunded, ADMIN) == CANCELLED
  {
    assert FindTarget(Edges(Paid), OrderStatus.Refunded) == Some(Edges(Paid)[1]);
  }

  lemma CancelledIsHeld()
    ensures ID in CANCELLED.orders && CANCELLED.orders[ID].status == OrderStatus.Refunded
    ensures Held(CANCELLED.orders[ID], Rows(CANCELLED.ledger, ID))
  {
    HoldIsFound();
  }

  /** An administrator cancels a paid order: it is REFUNDED, its hold is unsettled, and no
      orderly run ever settles it. */
  lemma StuckHoldIsPossible()
    ensures Reachable(CANCELLED) && ID in CANCELLED.orders
    ensures CANCELLED.orders[ID].status == OrderStatus.Refunded && !Progress.Live(CANCELLED.orders[ID].status)
    ensures Held(CANCELLED.orders[ID], Rows(CANCELLED.ledger, ID))
    ensures forall run :: !Progress.ClearsBalance(CANCELLED, run, ID)
  {
    HeldIsReachable();
    CancelledByAdmin();
    ReachableThen(HELD, UpdateStatus(ID, OrderStatus.Refunded, ADMIN));
    UpdateStep(HELD, ID, OrderStatus.Refunded, ADMIN);
    CancelledIsHeld();
    Progress.SettleableIffLive(CANCELLED, ID);
  }

  // ------------------------------------- an audit row that is not true

  const DISPUTED_BY_HAND :=
    DELIVERED.(orders := DELIVERED.orders[ID := Orders.MovedOrder(DELIVERED.orders[ID], OrderStatus.Disputed, 0)])

  lemma DisputedByHand()
    ensures Orders.AfterUpdate(DELIVERED, ID, OrderStatus.Disputed, BUYER) == DISPUTED_BY_HAND
    ensures ID in DISPUTED_BY_HAND.orders && DISPUTED_BY_HAND.orders[ID].escrow == Holding
    ensures Escrow.RefundVerdict(DISPUTED_BY_HAND, ID).RefundDone?
    ensures DISPUTED_BY_HAND.ledger == [HOLD] && DISPUTED_BY_HAND.now == 0
  {
    HoldIsFound();
    assert FindTarget(Edges(Delivered), OrderStatus.Disputed) == Some(Edges(Delivered)[1]);
    assert Orders.ContextualRole(DELIVERED.orders[ID], BUYER) == Role.Buyer;
  }

  /** A buyer disputes by a plain status change and is refunded: the audit row of the refund
      says that escrow was DISPUTED, and it was HOLDING. */
  lemma FalseAuditIsPossible()
    ensures Reachable(DISPUTED_BY_HAND) && ID in DISPUTED_BY_HAND.orders
    ensures DISPUTED_BY_HAND.orders[ID].escrow == Holding
    ensures
      var t := Step(DISPUTED_BY_HAND, RefundFunds(ID));
      && t.audit == DISPUTED_BY_HAND.audit + [Escrow.RefundAudit(HOLD, ID, 0)]
      && Escrow.RefundAudit(HOLD, ID, 0).fromStatus == EscrowStatus.Disputed
  {
    DeliveredIsReachable();
    DisputedByHand();
    ReachableThen(DELIVERED, UpdateStatus(ID, OrderStatus.Disputed, BUYER));
    UpdateStep(DELIVERED, ID, OrderStatus.Disputed, BUYER);
    RefundStep(DISPUTED_BY_HAND, ID);
  }

  // --------------------------------------- a job that is lost on the way

  const UNSCHEDULED := HELD.(jobs := {})

  /** A manual hold commits and the queue fails: the order is PAID and HOLDING without a job,
      although nothing fired early and no webhook was involved. */
  lemma UnscheduledHoldIsPossible()
    ensures Reachable(UNSCHEDULED) && !Scheduling.Scheduled(UNSCHEDULED, ID)
    ensures Scheduling.Spends(AWAITING, HoldFunds(ID, 100_000, ByCaller("hold"), None, false, false), ID)
  {
    AwaitingIsReachable();
    var hold := HoldFunds(ID, 100_000, ByCaller("hold"), None, false, false);
    ReachableThen(AWAITING, hold);
    assert Rows(AWAITING.ledger, ID) == [];
    assert Escrow.HoldVerdict(AWAITING, ID, 100_000, ByCaller("hold"), false).Held?;
    var t := Escrow.AfterHold(AWAITING, ID, 100_000, ByCaller("hold"), None, false, false);
    assert t.ledger == [HOLD] && t.jobs == {};
    assert Step(AWAITING, hold) == t;
    assert t == UNSCHEDULED;
  }

  /** A job that fires on the paid order, before it is delivered, is gone for good. */
  lemma LostJobIsPossible(run: seq<Command>)
    ensures Reachable(HELD) && ID in HELD.jobs
    ensures ID !in Run(Step(HELD, AutoReleaseJob(ID)), run).jobs
  {
    HeldIsReachable();
    HoldIsFound();
    Blocking.EarlyJobIsSpent(HELD, ID, run);
  }
}
