/** What every reachable state's ledger and audit log say about the money. */
module Conservation {
  import opened Types
  import opened Tables
  import opened OrderStateMachine
  import opened Protocol
  import opened OrderCases
  import opened Invariant
  import opened Safety
  import opened AuditLog
  import LedgerIdentity
  import Escrow
  import Orders
  import Webhook
  import Metadata

  // -------------------------------------------------------------- per order

  function AmountAt(rows: seq<LedgerRow>, i: nat, kind: LedgerKind): Kobo {
    if i < |rows| && rows[i].kind == kind then rows[i].amount else 0
  }

  function OneAt(rows: seq<LedgerRow>, i: nat, kind: LedgerKind): nat {
    if i < |rows| && rows[i].kind == kind then 1 else 0
  }

  lemma Tally(rows: seq<LedgerRow>, kind: LedgerKind)
    requires |rows| <= 3
    ensures Escrow.SumOf(rows, kind) == AmountAt(rows, 0, kind) + AmountAt(rows, 1, kind) + AmountAt(rows, 2, kind)
    ensures Escrow.CountOf(rows, kind) == OneAt(rows, 0, kind) + OneAt(rows, 1, kind) + OneAt(rows, 2, kind)
  {
    if rows != [] {
      Tally(rows[..|rows| - 1], kind);
    }
  }

  // The rows of one order, counted and added up against its hold and its status.
  predicate SettledOnce(order: Order, rows: seq<LedgerRow>) {
    var holds, releases := Escrow.CountOf(rows, EscrowHold), Escrow.CountOf(rows, FullRelease);
    var refunds, fees := Escrow.CountOf(rows, LedgerKind.Refund), Escrow.CountOf(rows, PlatformFee);
    var moneyIn := Escrow.SumOf(rows, EscrowHold);
    var moneyOut := Escrow.SumOf(rows, FullRelease) + Escrow.SumOf(rows, PlatformFee)
                    + Escrow.SumOf(rows, LedgerKind.Refund);
    && releases + refunds <= holds <= 1 && fees == releases
    && moneyOut == (if releases + refunds == 0 then 0 else moneyIn)
    && (holds == 1 ==> -1 <= moneyIn - order.total <= 1)
    && (releases == 1 ==> order.status == Completed && order.escrow == Released
                          && Escrow.SumOf(rows, FullRelease) == order.sellerPayout)
    && (refunds == 1 ==> order.status == OrderStatus.Refunded && order.escrow == EscrowStatus.Refunded)
  }

  // The part that is about the rows alone.
  lemma RowsSettledOnce(rows: seq<LedgerRow>)
    requires LedgerIdentity.SettledAtMostOnce(rows)
    ensures
      var holds, releases := Escrow.CountOf(rows, EscrowHold), Escrow.CountOf(rows, FullRelease);
      var refunds, fees := Escrow.CountOf(rows, LedgerKind.Refund), Escrow.CountOf(rows, PlatformFee);
      && holds == (if rows == [] then 0 else 1) && fees == releases
      && releases == (if |rows| == 3 then 1 else 0) && refunds == (if |rows| == 2 then 1 else 0)
    ensures
      Escrow.SumOf(rows, FullRelease) + Escrow.SumOf(rows, PlatformFee) + Escrow.SumOf(rows, LedgerKind.Refund) ==
      if |rows| <= 1 then 0 else Escrow.SumOf(rows, EscrowHold)
    ensures Escrow.SumOf(rows, EscrowHold) == if rows == [] then 0 else rows[0].amount
    ensures Escrow.SumOf(rows, FullRelease) == if |rows| == 3 then rows[2].amount else 0
    ensures Escrow.SumOf(rows, LedgerKind.Refund) == if |rows| == 2 then rows[0].amount else 0
  {
    Tally(rows, EscrowHold);
    Tally(rows, FullRelease);
    Tally(rows, PlatformFee);
    Tally(rows, LedgerKind.Refund);
  }

  lemma CaseSettledOnce(c: Case, now: Time)
    requires CaseInv(c, now)
    ensures SettledOnce(c.order, c.rows)
  {
    RowsSettledOnce(c.rows);
  }

  /** Conservation in the ledger, at the end of every orderly run: an order is funded at most
      once and settled at most once, a release always comes with its fee, and the outflow
      the ledger records is nothing or exactly what came in. Transfers are not ledger rows:
      Payouts says how they relate. */
  lemma EveryHoldSettledOnce(s: Store, id: OrderId)
    requires Reachable(s) && id in s.orders
    ensures SettledOnce(s.orders[id], Rows(s.ledger, id))
  {
    ReachableInv(s);
    CaseSettledOnce(CaseOf(s, id), s.now);
  }

  // ----------------------------------------------------------- over all orders

  lemma OrdersSettledAtMostOnce(s: Store, id: OrderId)
    requires Inv(s)
    ensures LedgerIdentity.SettledAtMostOnce(Rows(s.ledger, id))
  {
    if id in s.orders {
      assert CaseInv(CaseOf(s, id), s.now);
    } else {
      NoRows(s.ledger, id);
    }
  }

  /** The summary an administrator sees balances: held minus released, refunded and fees
      is what the unsettled holds add up to, and its order count is the number of orders
      that were ever funded. */
  lemma SummaryBalances(s: Store)
    requires Reachable(s)
    ensures
      var m := Escrow.Summarise(s.ledger);
      && m.held - m.released - m.refunded - m.platformFees == LedgerIdentity.OpenHolds(s.ledger, s.ledger)
      && m.totalOrders == |LedgerIdentity.FundedOrders(s.ledger)|
  {
    ReachableInv(s);
    forall id
      ensures LedgerIdentity.SettledAtMostOnce(Rows(s.ledger, id))
    {
      OrdersSettledAtMostOnce(s, id);
    }
    LedgerIdentity.SummaryIdentity(s.ledger);
  }

  // -------------------------------------------------------------- audit replay

  function AuditOf(audit: seq<AuditRow>, id: OrderId): seq<AuditRow> {
    if audit == [] then []
    else
      var last := audit[|audit| - 1];
      var before := AuditOf(audit[..|audit| - 1], id);
      if last.orderId == id then before + [last] else before
  }

  lemma RowsConcat(first: seq<LedgerRow>, second: seq<LedgerRow>, id: OrderId)
    ensures Rows(first + second, id) == Rows(first, id) + Rows(second, id)
  {
    if second == [] {
      assert first + second == first;
    } else {
      var n := |second| - 1;
      assert first + second == (first + second[..n]) + [second[n]];
      RowsConcat(first, second[..n], id);
      RowsSnoc(first + second[..n], second[n], id);
    }
  }

  lemma DescribedRowsAreOwn(row: AuditRow, id: OrderId)
    ensures Rows(Describes(row), id) == if row.orderId == id then Describes(row) else []
  {
    var described := Describes(row);
    RowsSnoc([], described[0], id);
    if |described| == 2 {
      assert described == [described[0]] + [described[1]];
      RowsSnoc([described[0]], described[1], id);
      assert [] + [described[0]] == [described[0]];
    } else {
      assert [] + [described[0]] == described;
    }
  }

  lemma {:induction false} ReplayPerOrder(audit: seq<AuditRow>, id: OrderId)
    ensures Rows(Replay(audit), id) == Replay(AuditOf(audit, id))
  {
    if audit != [] {
      var n := |audit| - 1;
      ReplayPerOrder(audit[..n], id);
      RowsConcat(Replay(audit[..n]), Describes(audit[n]), id);
      DescribedRowsAreOwn(audit[n], id);
      ReplaySnoc(AuditOf(audit[..n], id), audit[n]);
    }
  }

  predicate Explained(s: Store) {
    Replay(s.audit) == s.ledger
  }

  lemma FundExplains(s: Store, id: OrderId, amount: Kobo, reference: LedgerRef,
                     paystackRef: Option<PaymentRef>, paidAt: Option<Time>)
    requires Explained(s) && id in s.orders
    ensures Explained(Escrow.Fund(s, id, amount, reference, paystackRef, paidAt))
  {
    ReplaySnoc(s.audit, Escrow.HoldAudit(id, amount, reference, paystackRef));
  }

  lemma ReleaseExplains(s: Store, id: OrderId, trigger: Trigger)
    requires Explained(s)
    ensures Explained(Escrow.AfterRelease(s, id, trigger))
  {
    if Escrow.ReleaseVerdict(s, id).ReleaseDone? {
      var order, hold := s.orders[id], FindHold(s.ledger, id).value;
      ReplaySnoc(s.audit, Escrow.ReleaseAudit(order, hold, id, s.now, trigger));
    }
  }

  lemma RefundExplains(s: Store, id: OrderId)
    requires Explained(s)
    ensures Explained(Escrow.AfterRefund(s, id))
  {
    if Escrow.RefundVerdict(s, id).RefundDone? {
      ReplaySnoc(s.audit, Escrow.RefundAudit(FindHold(s.ledger, id).value, id, s.now));
    }
  }

  lemma ChargeExplains(s: Store, reference: PaymentRef, metadata: Metadata.PaymentMetadata,
                       v: Webhook.Verification, oneKoboOver: bool, schedulingWorks: bool)
    requires Explained(s)
    ensures Explained(Webhook.AfterCharge(s, reference, metadata, v, oneKoboOver, schedulingWorks))
  {
    if Webhook.ChargeVerdict(s, reference, metadata, v, oneKoboOver).Funded? {
      FundedMeans(s, reference, metadata, v, oneKoboOver);
      var id := Metadata.ExtractedOrderId(metadata).value;
      var order := s.orders[id];
      var recorded := s.(payments := s.payments[reference := Webhook.SuccessRecord(id, v)]);
      FundExplains(recorded, id, v.amount, EscrowFor(reference), Some(reference),
                   if order.status == Paid then order.stamps.paid else v.WebhookTime());
    }
  }

  lemma UpdateExplains(s: Store, id: OrderId, next: OrderStatus, user: User)
    requires Explained(s)
    ensures Explained(Orders.AfterUpdate(s, id, next, user))
  {
    ReleaseExplains(s, id, ByBuyer);
  }

  lemma EscrowExplains(s: Store, c: Command)
    requires Explained(s) && EscrowCommand(c)
    ensures Explained(EscrowStep(s, c))
  {
    match c
    case HoldFunds(id, amount, holdRef, paystackRef, oneKoboOver, _) =>
      if Escrow.HoldVerdict(s, id, amount, holdRef, oneKoboOver).Held? {
        FundExplains(s, id, amount, holdRef, paystackRef, Some(s.now));
      }
    case AutoReleaseJob(id) => ReleaseExplains(s, id, ByAutoRelease);
    case AdminRelease(id) => ReleaseExplains(s, id, ByAdmin);
    case RefundFunds(id) => RefundExplains(s, id);
  }

  lemma StepExplains(s: Store, c: Command)
    requires Explained(s)
    ensures Explained(Step(s, c))
  {
    if EscrowCommand(c) {
      EscrowExplains(s, c);
    } else if c.ChargeSuccess? {
      ChargeStep(s, c);
      ChargeExplains(s, c.reference, c.metadata, c.v, c.oneKoboOver, c.schedulingWorks);
    } else if c.UpdateStatus? {
      UpdateExplains(s, c.id, c.next, c.user);
    } else {
      LedgerUntouched(s, c);
    }
  }

  lemma {:induction false} ExplainedAlongRun(s: Store, run: seq<Command>)
    requires Explained(s)
    ensures Explained(Run(s, run))
    decreases run
  {
    if run != [] {
      StepExplains(s, run[0]);
      ExplainedAlongRun(Step(s, run[0]), run[1..]);
    }
  }

  /** The audit log explains the ledger after any run at all, orderly or not: replaying it
      rebuilds the whole table, and replaying one order's entries rebuilds that order's
      rows, in order and exactly. */
  lemma AuditRebuildsLedger(run: seq<Command>, id: OrderId)
    ensures
      var s := Run(EMPTY, run);
      && Replay(s.audit) == s.ledger
      && Replay(AuditOf(s.audit, id)) == Rows(s.ledger, id)
  {
    ExplainedAlongRun(EMPTY, run);
    ReplayPerOrder(Run(EMPTY, run).audit, id);
  }

  // ---------------------------------------------------------- truthful history

  // `row`, written by the step from `s` to `t`, against the statuses before and after it.
  predicate TellsTheTruth(s: Store, t: Store, row: AuditRow) {
    var id := row.orderId;
    && id in s.orders && id in t.orders
    && row.toStatus == t.orders[id].escrow
    && (row.fromStatus == s.orders[id].escrow <==> !(row.action.RefundAction? && id !in s.disputes))
    && (row.action.ReleaseAction? ==> s.orders[id].status == Delivered)
    && (row.action.RefundAction? && id !in s.disputes ==> s.orders[id].escrow == Holding)
  }

  predicate WritesTruth(s: Store, t: Store) {
    t.audit == s.audit
    || (|t.audit| == |s.audit| + 1 && t.audit[..|s.audit|] == s.audit && TellsTheTruth(s, t, t.audit[|s.audit|]))
  }

  lemma UnheldIsPending(s: Store, id: OrderId)
    requires CasesInv(s) && id in s.orders
    requires s.orders[id].status in {AwaitingPayment, Paid} && FindHold(s.ledger, id).None?
    ensures s.orders[id].escrow == EscrowStatus.Pending
  {
    assert CaseInv(CaseOf(s, id), s.now);
  }

  lemma FundWritesTruth(s: Store, t: Store, id: OrderId, amount: Kobo, reference: LedgerRef,
                        paystackRef: Option<PaymentRef>)
    requires id in s.orders && s.orders[id].escrow == EscrowStatus.Pending
    requires id in t.orders && t.orders[id].escrow == Holding
    requires t.audit == s.audit + [Escrow.HoldAudit(id, amount, reference, paystackRef)]
    ensures WritesTruth(s, t)
  {
  }

  lemma ChargeWritesTruth(s: Store, c: Command)
    requires CasesInv(s) && c.ChargeSuccess?
    ensures WritesTruth(s, Step(s, c))
  {
    ChargeStep(s, c);
    if Webhook.ChargeVerdict(s, c.reference, c.metadata, c.v, c.oneKoboOver).Funded? {
      FundedMeans(s, c.reference, c.metadata, c.v, c.oneKoboOver);
      var id := Metadata.ExtractedOrderId(c.metadata).value;
      UnheldIsPending(s, id);
      FundWritesTruth(s, Step(s, c), id, c.v.amount, EscrowFor(c.reference), Some(c.reference));
    }
  }

  lemma EscrowWritesTruth(s: Store, c: Command)
    requires CasesInv(s) && EscrowCommand(c)
    ensures WritesTruth(s, Step(s, c))
  {
    SettledFromHeld(s, c.id);
    if c.HoldFunds? && HoldRequest(c) && Escrow.HoldVerdict(s, c.id, c.amount, c.holdRef, c.oneKoboOver).Held? {
      UnheldIsPending(s, c.id);
    }
  }

  /** The statuses that hold, release and refund write into the audit log are constants
      of the code. They are nevertheless the real ones, before and after the step, with
      one exception: a refund always claims to come from DISPUTED, which is untrue
      exactly when the dispute was entered by a plain status change and has no row. */
  lemma HistoryIsTruthful(s: Store, c: Command)
    requires Reachable(s)
    ensures WritesTruth(s, Step(s, c))
  {
    ReachableInv(s);
    if c.ChargeSuccess? {
      ChargeWritesTruth(s, c);
    } else if EscrowCommand(c) {
      EscrowWritesTruth(s, c);
    } else if c.UpdateStatus? {
      SettledFromHeld(s, c.id);
    } else {
      LedgerUntouched(s, c);
    }
  }

  /** So a release is always made from DELIVERED with HOLDING: although releaseFunds also
      accepts COMPLETED, no reachable order is COMPLETED while escrow is HOLDING. */
  lemma NeverCompletedWhileHolding(s: Store, id: OrderId)
    requires Reachable(s) && id in s.orders
    ensures !(s.orders[id].status == Completed && s.orders[id].escrow == Holding)
    ensures Escrow.ReleaseVerdict(s, id).ReleaseDone? ==>
      s.orders[id].status == Delivered && s.orders[id].escrow == Holding
  {
    ReachableInv(s);
    assert CaseInv(CaseOf(s, id), s.now);
    SettledFromHeld(s, id);
  }
}
