/** The invariant over all the tables, and the theorem that a command keeps it exactly
    when it is orderly. */
module Safety {
  import opened Types
  import opened Tables
  import opened OrderStateMachine
  import opened Protocol
  import opened OrderCases
  import opened Invariant
  import opened PaymentRecords
  import Escrow
  import Orders
  import Payments
  import Transfers
  import Webhook
  import Metadata

  predicate RowFits(row: LedgerRow) {
    match row.kind
    case EscrowHold => CallerReference(row.reference)
    case PlatformFee => row.reference.FeeFor? && row.reference.order == row.orderId
    case FullRelease => row.reference.ReleaseOf? && row.reference.order == row.orderId
    case Refund => row.reference.RefundOf? && row.reference.order == row.orderId
  }

  predicate UniqueRefs(ledger: seq<LedgerRow>) {
    forall i, j :: 0 <= i < j < |ledger| ==> ledger[i].reference != ledger[j].reference
  }

  // Every row is of its kind and belongs to an order, and the unique index on references never trips.
  predicate LedgerInv(s: Store) {
    && (forall i :: 0 <= i < |s.ledger| ==> RowFits(s.ledger[i]) && s.ledger[i].orderId in s.orders)
    && UniqueRefs(s.ledger)
  }

  predicate PaymentFits(s: Store, p: Payment) {
    && p.orderId in s.orders
    && (p.state.PaymentSuccess? ==> p.verifiedAt.Some?)
    && (!p.state.PaymentSuccess? ==> Rank(s.orders[p.orderId].status) >= 2)
  }

  predicate PaymentsInv(s: Store) {
    forall r :: r in s.payments ==> PaymentFits(s, s.payments[r])
  }

  predicate TransferFits(s: Store, t: Transfer) {
    && t.orderId in s.orders
    && PayoutReady(s.orders[t.orderId])
    && t.amount == s.orders[t.orderId].sellerPayout
  }

  ghost predicate TransfersInv(s: Store) {
    && (forall i :: 0 <= i < |s.transfers| ==> TransferFits(s, s.transfers[i]))
    && (forall i, j :: 0 <= i < j < |s.transfers| ==> s.transfers[i].reference != s.transfers[j].reference)
    && (forall id :: Transfers.ActiveCount(s.transfers, id) <= 1)
  }

  predicate CasesInv(s: Store) {
    && s.disputes.Keys <= s.orders.Keys
    && s.jobs <= s.orders.Keys
    && (forall id {:trigger CaseOf(s, id)} :: id in s.orders ==> CaseInv(CaseOf(s, id), s.now))
  }

  ghost predicate Inv(s: Store) {
    CasesInv(s) && LedgerInv(s) && PaymentsInv(s) && TransfersInv(s)
  }

  // A release or a refund only ever settles an order whose single row is its hold.
  lemma SettledFromHeld(s: Store, id: OrderId)
    requires CasesInv(s)
    ensures Escrow.ReleaseVerdict(s, id).ReleaseDone? ==>
      && Held(s.orders[id], Rows(s.ledger, id))
      && s.orders[id].status == Delivered && s.orders[id].escrow == Holding
    ensures Escrow.RefundVerdict(s, id).RefundDone? ==>
      && Held(s.orders[id], Rows(s.ledger, id))
      && s.orders[id].escrow == if id in s.disputes then EscrowStatus.Disputed else Holding
  {
    if id in s.orders {
      assert CaseInv(CaseOf(s, id), s.now);
    }
  }

  // ------------------------------------------------------------------- ledger

  lemma {:induction false} RowsContains(ledger: seq<LedgerRow>, i: nat)
    requires i < |ledger|
    ensures ledger[i] in Rows(ledger, ledger[i].orderId)
  {
    var n := |ledger| - 1;
    if i < n {
      RowsContains(ledger[..n], i);
    }
  }

  lemma {:induction false} NoRows(ledger: seq<LedgerRow>, id: OrderId)
    requires forall i :: 0 <= i < |ledger| ==> ledger[i].orderId != id
    ensures Rows(ledger, id) == []
  {
    if ledger != [] {
      NoRows(ledger[..|ledger| - 1], id);
    }
  }

  // An order whose only row is its hold has used no settlement reference yet.
  lemma HeldRefsAreFree(s: Store, id: OrderId, reference: LedgerRef)
    requires LedgerInv(s) && id in s.orders && Held(s.orders[id], Rows(s.ledger, id))
    requires !CallerReference(reference) && reference.order == id
    ensures !RefTaken(s.ledger, reference)
  {
    if RefTaken(s.ledger, reference) {
      var i :| 0 <= i < |s.ledger| && s.ledger[i].reference == reference;
      assert RowFits(s.ledger[i]);
      RowsContains(s.ledger, i);
    }
  }

  lemma AppendKeepsRefs(ledger: seq<LedgerRow>, row: LedgerRow)
    requires UniqueRefs(ledger) && !RefTaken(ledger, row.reference)
    ensures UniqueRefs(ledger + [row])
  {
  }

  lemma FundKeepsLedger(s: Store, id: OrderId, amount: Kobo, reference: LedgerRef,
                        paystackRef: Option<PaymentRef>, paidAt: Option<Time>)
    requires LedgerInv(s) && id in s.orders && CallerReference(reference) && !RefTaken(s.ledger, reference)
    ensures LedgerInv(Escrow.Fund(s, id, amount, reference, paystackRef, paidAt))
  {
    var row := Escrow.HoldRow(id, amount, reference, paystackRef);
    AppendKeepsRefs(s.ledger, row);
  }

  lemma ReleaseKeepsLedger(s: Store, id: OrderId, trigger: Trigger)
    requires LedgerInv(s) && CasesInv(s)
    ensures LedgerInv(Escrow.AfterRelease(s, id, trigger))
  {
    if Escrow.ReleaseVerdict(s, id).ReleaseDone? {
      SettledFromHeld(s, id);
      var order, hold := s.orders[id], FindHold(s.ledger, id).value;
      var fee, paid := Escrow.FeeRow(order, hold, id, s.now), Escrow.ReleaseRow(order, id, s.now);
      HeldRefsAreFree(s, id, fee.reference);
      HeldRefsAreFree(s, id, paid.reference);
      AppendKeepsRefs(s.ledger, fee);
      AppendKeepsRefs(s.ledger + [fee], paid);
    }
  }

  lemma RefundKeepsLedger(s: Store, id: OrderId)
    requires LedgerInv(s) && CasesInv(s)
    ensures LedgerInv(Escrow.AfterRefund(s, id))
  {
    if Escrow.RefundVerdict(s, id).RefundDone? {
      SettledFromHeld(s, id);
      var hold := FindHold(s.ledger, id).value;
      var row := Escrow.RefundRow(hold, id, s.now);
      HeldRefsAreFree(s, id, row.reference);
      AppendKeepsRefs(s.ledger, row);
    }
  }

  lemma ChargeKeepsLedger(s: Store, reference: PaymentRef, metadata: Metadata.PaymentMetadata,
                          v: Webhook.Verification, oneKoboOver: bool, schedulingWorks: bool)
    requires LedgerInv(s)
    ensures LedgerInv(Webhook.AfterCharge(s, reference, metadata, v, oneKoboOver, schedulingWorks))
  {
    if Webhook.ChargeVerdict(s, reference, metadata, v, oneKoboOver).Funded? {
      FundedMeans(s, reference, metadata, v, oneKoboOver);
      var id := Metadata.ExtractedOrderId(metadata).value;
      var order := s.orders[id];
      FundKeepsLedger(s, id, v.amount, EscrowFor(reference), Some(reference),
                      if order.status == Paid then order.stamps.paid else v.WebhookTime());
    }
  }

  // These commands write to neither the ledger nor the audit log.
  lemma LedgerUntouched(s: Store, c: Command)
    requires !c.HoldFunds? && !c.ChargeSuccess? && !c.UpdateStatus? && !c.AutoReleaseJob?
    requires !c.AdminRelease? && !c.RefundFunds?
    ensures Step(s, c).ledger == s.ledger && Step(s, c).audit == s.audit
  {
    if c.VerifyByReference? && Payments.Confirms(s, c.reference, c.v) {
      Payments.PollingHoldDeclines(s, c.reference, c.v, c.oneKoboOver);
    }
  }

  lemma HoldKeepsLedger(s: Store, id: OrderId, amount: Kobo, reference: LedgerRef,
                        paystackRef: Option<PaymentRef>, oneKoboOver: bool, queueWorks: bool)
    requires LedgerInv(s) && CallerReference(reference)
    ensures LedgerInv(Escrow.AfterHold(s, id, amount, reference, paystackRef, oneKoboOver, queueWorks))
  {
    if Escrow.HoldVerdict(s, id, amount, reference, oneKoboOver).Held? {
      FundKeepsLedger(s, id, amount, reference, paystackRef, Some(s.now));
    }
  }

  lemma UpdateKeepsLedger(s: Store, id: OrderId, next: OrderStatus, user: User)
    requires LedgerInv(s) && CasesInv(s)
    ensures LedgerInv(Orders.AfterUpdate(s, id, next, user))
  {
    ReleaseKeepsLedger(s, id, ByBuyer);
    var t := Orders.AfterUpdate(s, id, next, user);
    if !Orders.UpdateVerdict(s, id, next, user).ThroughEscrow? {
      assert t.ledger == s.ledger && t.audit == s.audit;
    }
  }

  lemma EscrowKeepsLedger(s: Store, c: Command)
    requires LedgerInv(s) && CasesInv(s) && EscrowCommand(c)
    ensures LedgerInv(EscrowStep(s, c))
  {
    match c
    case HoldFunds(id, amount, holdRef, paystackRef, oneKoboOver, queueWorks) =>
      if HoldRequest(c) {
        HoldKeepsLedger(s, id, amount, holdRef, paystackRef, oneKoboOver, queueWorks);
      }
    case AutoReleaseJob(id) => ReleaseKeepsLedger(s, id, ByAutoRelease);
    case AdminRelease(id) => ReleaseKeepsLedger(s, id, ByAdmin);
    case RefundFunds(id) => RefundKeepsLedger(s, id);
  }

  lemma LedgerKept(s: Store, c: Command)
    requires LedgerInv(s) && CasesInv(s)
    ensures LedgerInv(Step(s, c))
  {
    if EscrowCommand(c) {
      EscrowKeepsLedger(s, c);
    } else if c.ChargeSuccess? {
      ChargeKeepsLedger(s, c.reference, c.metadata, c.v, c.oneKoboOver, c.schedulingWorks);
    } else if c.UpdateStatus? {
      UpdateKeepsLedger(s, c.id, c.next, c.user);
    } else {
      LedgerUntouched(s, c);
      OrdersOnlyAppear(s, c);
    }
  }

  // -------------------------------------------------------------------- cases

  lemma NewOrderInv(s: Store, c: Command)
    requires LedgerInv(s) && CasesInv(s) && c.Create?
    requires c.id !in s.orders && c.id in Step(s, c).orders
    ensures CaseInv(CaseOf(Step(s, c), c.id), s.now)
  {
    NoRows(s.ledger, c.id);
  }

  lemma OrdersOnlyAppear(s: Store, c: Command)
    ensures s.orders.Keys <= Step(s, c).orders.Keys <= s.orders.Keys + if c.Create? then {c.id} else {}
    ensures s.disputes.Keys <= s.orders.Keys ==> Step(s, c).disputes.Keys <= Step(s, c).orders.Keys
    ensures s.jobs <= s.orders.Keys ==> Step(s, c).jobs <= Step(s, c).orders.Keys
    ensures s.now <= Step(s, c).now
  {
    if !c.Create? && !c.Tick? {
      assert SameFrame(s, Step(s, c));
    }
  }

  lemma CasesKept(s: Store, c: Command)
    requires LedgerInv(s) && CasesInv(s) && Orderly(s, c)
    ensures CasesInv(Step(s, c))
  {
    var t := Step(s, c);
    OrdersOnlyAppear(s, c);
    forall id | id in t.orders
      ensures CaseInv(CaseOf(t, id), t.now)
    {
      if id in s.orders {
        OrderlyCommandsRefine(s, c, id);
        CaseStepKeeps(id, CaseOf(s, id), CaseOf(t, id), s.now);
        CaseInvLater(CaseOf(t, id), s.now, t.now);
      } else {
        NewOrderInv(s, c);
      }
    }
  }

  lemma OrderFactsKept(s: Store, c: Command, id: OrderId)
    requires CasesInv(s) && Orderly(s, c) && id in s.orders
    ensures id in Step(s, c).orders
    ensures Rank(s.orders[id].status) <= Rank(Step(s, c).orders[id].status)
    ensures SameTerms(s.orders[id], Step(s, c).orders[id])
    ensures PayoutReady(s.orders[id]) ==> PayoutReady(Step(s, c).orders[id])
  {
    OrderlyCommandsRefine(s, c, id);
    CaseStepFacts(id, CaseOf(s, id), CaseOf(Step(s, c), id), s.now);
  }

  // ----------------------------------------------------- payments and transfers

  lemma PaymentKept(s: Store, c: Command, r: PaymentRef)
    requires CasesInv(s) && (r in s.payments ==> PaymentFits(s, s.payments[r])) && Orderly(s, c)
    requires r in Step(s, c).payments
    ensures PaymentFits(Step(s, c), Step(s, c).payments[r])
  {
    var t := Step(s, c);
    OrdersOnlyAppear(s, c);
    RecordsMove(s, c, r);
    assert RecordOf(t, r) == Some(t.payments[r]);
    if t.payments[r].orderId in s.orders {
      OrderFactsKept(s, c, t.payments[r].orderId);
    }
  }

  lemma PaymentsKept(s: Store, c: Command)
    requires CasesInv(s) && PaymentsInv(s) && Orderly(s, c)
    ensures PaymentsInv(Step(s, c))
  {
    forall r | r in Step(s, c).payments
      ensures PaymentFits(Step(s, c), Step(s, c).payments[r])
    {
      PaymentKept(s, c, r);
    }
  }

  function Weight(t: Transfer, id: OrderId): nat {
    if t.orderId == id && Transfers.Active(t) then 1 else 0
  }

  lemma CountSnoc(transfers: seq<Transfer>, t: Transfer, id: OrderId)
    ensures Transfers.ActiveCount(transfers + [t], id) == Transfers.ActiveCount(transfers, id) + Weight(t, id)
  {
    assert (transfers + [t])[..|transfers|] == transfers;
  }

  lemma {:induction false} CountUpdate(transfers: seq<Transfer>, i: nat, t: Transfer, id: OrderId)
    requires i < |transfers|
    ensures Transfers.ActiveCount(transfers[i := t], id) ==
            Transfers.ActiveCount(transfers, id) - Weight(transfers[i], id) + Weight(t, id)
  {
    var n := |transfers| - 1;
    if i < n {
      CountUpdate(transfers[..n], i, t, id);
      assert transfers[i := t][..n] == transfers[..n][i := t];
    } else {
      assert transfers[i := t][..n] == transfers[..n];
    }
  }

  lemma TransferOpenedKeeps(s: Store, id: OrderId, reference: PaymentRef, hasRecipient: bool)
    requires TransfersInv(s)
    ensures TransfersInv(Transfers.AfterTransfer(s, id, reference, hasRecipient))
  {
    if Transfers.TransferVerdict(s, id, reference, hasRecipient).TransferInitiated? {
      var added := Transfer(id, reference, s.orders[id].sellerPayout, TransferPending);
      forall other
        ensures Transfers.ActiveCount(s.transfers + [added], other) <= 1
      {
        CountSnoc(s.transfers, added, other);
      }
    }
  }

  // A state change keeps the invariant exactly when it does not make a second active transfer.
  lemma TransferStateKeeps(s: Store, reference: PaymentRef, state: TransferState)
    requires TransfersInv(s)
    ensures
      var i := Transfers.IndexOf(s.transfers, reference);
      TransfersInv(Transfers.AfterTransferState(s, reference, state)) <==>
        (i.Some? && s.transfers[i.value].state.TransferFailed? && !state.TransferFailed? ==>
          Transfers.ActiveCount(s.transfers, s.transfers[i.value].orderId) == 0)
  {
    var index := Transfers.IndexOf(s.transfers, reference);
    if index.Some? {
      var i := index.value;
      var changed := s.transfers[i].(state := state);
      forall id
        ensures Transfers.ActiveCount(s.transfers[i := changed], id) ==
                Transfers.ActiveCount(s.transfers, id) - Weight(s.transfers[i], id) + Weight(changed, id)
      {
        CountUpdate(s.transfers, i, changed, id);
      }
      var t := Transfers.AfterTransferState(s, reference, state);
      assert t.transfers == s.transfers[i := changed];
      assert TransferFits(s, s.transfers[i]);
      var revived := s.transfers[i].state.TransferFailed? && !state.TransferFailed?;
      if revived {
        assert Transfers.ActiveCount(t.transfers, changed.orderId) ==
               Transfers.ActiveCount(s.transfers, changed.orderId) + 1;
      }
      forall id | !revived || id != changed.orderId || Transfers.ActiveCount(s.transfers, id) == 0
        ensures Transfers.ActiveCount(t.transfers, id) <= 1
      {
        assert Transfers.ActiveCount(s.transfers, id) <= 1;
      }
    }
  }

  lemma TransfersUntouched(s: Store, c: Command)
    requires !TransferCommand(c)
    ensures Step(s, c).transfers == s.transfers
  {
  }

  lemma TransferCommandKeeps(s: Store, c: Command)
    requires TransfersInv(s) && TransferCommand(c) && Orderly(s, c)
    ensures TransfersInv(TransferStep(s, c))
  {
    match c
    case InitiateTransfer(id, reference, hasRecipient) => TransferOpenedKeeps(s, id, reference, hasRecipient);
    case TransferSucceeded(reference) => TransferStateKeeps(s, reference, TransferSuccess);
    case TransferFailedOrReversed(reference) => TransferStateKeeps(s, reference, TransferFailed);
  }

  lemma TransfersKept(s: Store, c: Command)
    requires CasesInv(s) && TransfersInv(s) && Orderly(s, c)
    ensures TransfersInv(Step(s, c))
  {
    if TransferCommand(c) {
      TransferCommandKeeps(s, c);
    } else {
      TransfersUntouched(s, c);
      forall i | 0 <= i < |s.transfers|
        ensures TransferFits(Step(s, c), s.transfers[i])
      {
        OrderFactsKept(s, c, s.transfers[i].orderId);
      }
    }
  }

  // ------------------------------------------------------------- the theorems

  lemma OrderlyKeepsInv(s: Store, c: Command)
    requires Inv(s) && Orderly(s, c)
    ensures Inv(Step(s, c))
  {
    CasesKept(s, c);
    LedgerKept(s, c);
    PaymentsKept(s, c);
    TransfersKept(s, c);
  }

  lemma LatePollBreaksInv(s: Store, c: Command)
    requires Inv(s) && c.VerifyByReference? && !Orderly(s, c)
    ensures !Inv(Step(s, c))
  {
    var id := s.payments[c.reference].orderId;
    assert CaseInv(CaseOf(s, id), s.now);
    Payments.PollingHoldDeclines(s, c.reference, c.v, c.oneKoboOver);
    assert !StampsInv(CaseOf(Step(s, c), id).order, s.now);
  }

  lemma StaleCommitBreaksInv(s: Store, c: Command)
    requires Inv(s) && c.ResolveCommit? && !Orderly(s, c)
    ensures !Inv(Step(s, c))
  {
    var id := c.ticket.orderId;
    assert CaseInv(CaseOf(s, id), s.now);
    assert !StampsInv(CaseOf(Step(s, c), id).order, s.now);
  }

  /** The exact condition. From a state that satisfies the invariant, a command leads
      to one that does if and only if it is orderly: the three unread states are the
      only way out of the protocol, and each of them is one. */
  lemma InvKeptIffOrderly(s: Store, c: Command)
    requires Inv(s)
    ensures Inv(Step(s, c)) <==> Orderly(s, c)
  {
    if Orderly(s, c) {
      OrderlyKeepsInv(s, c);
    } else if c.VerifyByReference? {
      LatePollBreaksInv(s, c);
    } else if c.ResolveCommit? {
      StaleCommitBreaksInv(s, c);
    } else {
      TransferStateKeeps(s, c.reference, TransferSuccess);
    }
  }

  /** Over whole runs: an orderly run of any length keeps the invariant. */
  lemma {:induction false} InvAlongRun(s: Store, run: seq<Command>)
    requires Inv(s) && OrderlyRun(s, run)
    ensures Inv(Run(s, run))
    decreases run
  {
    if run != [] {
      OrderlyKeepsInv(s, run[0]);
      InvAlongRun(Step(s, run[0]), run[1..]);
    }
  }

  ghost predicate Reachable(s: Store) {
    exists run :: OrderlyRun(EMPTY, run) && Run(EMPTY, run) == s
  }

  lemma ReachableInv(s: Store)
    requires Reachable(s)
    ensures Inv(s)
  {
    var run :| OrderlyRun(EMPTY, run) && Run(EMPTY, run) == s;
    assert Inv(EMPTY);
    InvAlongRun(EMPTY, run);
  }
}
