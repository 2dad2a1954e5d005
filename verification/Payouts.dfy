/** How much the sellers are paid. */
module Payouts {
  import opened Types
  import opened Tables
  import opened OrderStateMachine
  import opened Protocol
  import opened OrderCases
  import opened Invariant
  import opened Safety
  import Conservation
  import Escrow
  import Transfers

  lemma {:induction false} TotalOfActive(transfers: seq<Transfer>, id: OrderId, payout: Kobo)
    requires forall i :: 0 <= i < |transfers| && transfers[i].orderId == id ==> transfers[i].amount == payout
    requires Transfers.ActiveCount(transfers, id) <= 1
    ensures Transfers.ActiveTotal(transfers, id) ==
            if Transfers.ActiveCount(transfers, id) == 0 then 0 else payout
  {
    if transfers != [] {
      TotalOfActive(transfers[..|transfers| - 1], id, payout);
    }
  }

  lemma TransfersFit(s: Store, id: OrderId)
    requires TransfersInv(s) && id in s.orders
    ensures forall i :: 0 <= i < |s.transfers| && s.transfers[i].orderId == id ==>
      s.transfers[i].amount == s.orders[id].sellerPayout && PayoutReady(s.orders[id])
  {
  }

  lemma NoRefundWhenPayoutReady(c: Case, now: Time)
    requires CaseInv(c, now) && PayoutReady(c.order)
    ensures forall k :: 0 <= k < |c.rows| ==> !c.rows[k].kind.Refund?
  {
  }

  /** However often ESCROW_RELEASED is delivered or a payout retried, an order has at most
      one transfer that is pending or paid, those add up to at most the seller's payout,
      and any transfer at all means the order is COMPLETED with escrow RELEASED, so none of
      its money has been refunded. */
  lemma PayoutsAreBounded(s: Store, id: OrderId)
    requires Reachable(s) && id in s.orders
    ensures Transfers.ActiveCount(s.transfers, id) <= 1
    ensures 0 <= Transfers.ActiveTotal(s.transfers, id) <= s.orders[id].sellerPayout
    ensures (exists i :: 0 <= i < |s.transfers| && s.transfers[i].orderId == id) ==>
      && s.orders[id].status == Completed && s.orders[id].escrow == Released
      && (forall k :: 0 <= k < |Rows(s.ledger, id)| ==> !Rows(s.ledger, id)[k].kind.Refund?)
  {
    ReachableInv(s);
    var c := CaseOf(s, id);
    TransfersFit(s, id);
    TotalOfActive(s.transfers, id, c.order.sellerPayout);
    if PayoutReady(c.order) {
      NoRefundWhenPayoutReady(c, s.now);
    }
  }

  // --------------------------------------------- payouts against the ledger

  lemma ReleaseRowIff(c: Case, now: Time)
    requires CaseInv(c, now) && PayoutReady(c.order)
    ensures c.dispute.None? <==> Escrow.CountOf(c.rows, FullRelease) == 1
    ensures Escrow.SumOf(c.rows, FullRelease) == if c.dispute.None? then c.order.sellerPayout else 0
    ensures c.dispute.Some? ==> c.dispute.value.state == Resolved(ForSeller)
  {
    Conservation.Tally(c.rows, FullRelease);
  }

  /** When a payout is in the ledger. An order whose payout is due has its FULL_RELEASE row,
      for exactly sellerPayout, if and only if no dispute was ever raised about it; the other
      due payouts are those of disputes decided for the seller, which write no row. */
  lemma PayoutInLedgerIff(s: Store, id: OrderId)
    requires Reachable(s) && id in s.orders && PayoutReady(s.orders[id])
    ensures Escrow.CountOf(Rows(s.ledger, id), FullRelease) == 1 <==> id !in s.disputes
    ensures Escrow.SumOf(Rows(s.ledger, id), FullRelease) == if id in s.disputes then 0 else s.orders[id].sellerPayout
    ensures id in s.disputes ==> s.disputes[id].state == Resolved(ForSeller)
  {
    ReachableInv(s);
    ReleaseRowIff(CaseOf(s, id), s.now);
  }

  /** The same for each transfer: the release row of its order is for exactly its amount if
      and only if no dispute was raised; otherwise there is no such row at all. */
  lemma TransferInLedgerIff(s: Store, i: nat)
    requires Reachable(s) && i < |s.transfers|
    ensures
      var t := s.transfers[i];
      && t.amount > 0
      && (Escrow.SumOf(Rows(s.ledger, t.orderId), FullRelease) == t.amount <==> t.orderId !in s.disputes)
      && (t.orderId in s.disputes ==> Escrow.CountOf(Rows(s.ledger, t.orderId), FullRelease) == 0)
  {
    ReachableInv(s);
    var t := s.transfers[i];
    assert TransferFits(s, t);
    var c := CaseOf(s, t.orderId);
    assert CaseInv(c, s.now);
    ReleaseRowIff(c, s.now);
    Conservation.Tally(c.rows, FullRelease);
  }

  // --------------------------------------------------- cash out against cash in

  // What has left for the seller, or is on its way, and what the buyer got back.
  function CashOut(s: Store, id: OrderId): Kobo {
    Transfers.ActiveTotal(s.transfers, id) + Escrow.SumOf(Rows(s.ledger, id), LedgerKind.Refund)
  }

  function CashIn(s: Store, id: OrderId): Kobo {
    Escrow.SumOf(Rows(s.ledger, id), EscrowHold)
  }

  lemma HoldCoversPayout(c: Case, now: Time)
    requires CaseInv(c, now) && c.order.total >= 11
    ensures c.rows != [] ==> c.order.sellerPayout <= Escrow.SumOf(c.rows, EscrowHold)
    ensures c.rows == [] ==> Escrow.SumOf(c.rows, EscrowHold) == 0
    ensures Escrow.SumOf(c.rows, LedgerKind.Refund) in {0, Escrow.SumOf(c.rows, EscrowHold)}
    ensures PayoutReady(c.order) ==> Escrow.SumOf(c.rows, LedgerKind.Refund) == 0
    ensures c.order.sellerPayout > 0 && Escrow.SumOf(c.rows, EscrowHold) >= 0
  {
    Conservation.Tally(c.rows, EscrowHold);
    Conservation.Tally(c.rows, LedgerKind.Refund);
  }

  /** Transfers and refunds together, from 11 kobo on: an order costs the platform more than
      it brought in if and only if a payout is active for an order that was never funded. */
  lemma CashOutWithinCashInIff(s: Store, id: OrderId)
    requires Reachable(s) && id in s.orders && s.orders[id].total >= 11
    ensures CashOut(s, id) <= CashIn(s, id) <==>
            Rows(s.ledger, id) != [] || Transfers.ActiveCount(s.transfers, id) == 0
  {
    PayoutsAreBounded(s, id);
    ReachableInv(s);
    var c := CaseOf(s, id);
    assert CaseInv(c, s.now);
    HoldCoversPayout(c, s.now);
    TransfersFit(s, id);
    TotalOfActive(s.transfers, id, c.order.sellerPayout);
    ActiveIsThere(s.transfers, id);
  }

  lemma {:induction false} ActiveIsThere(transfers: seq<Transfer>, id: OrderId)
    ensures Transfers.ActiveCount(transfers, id) > 0 ==>
      exists i :: 0 <= i < |transfers| && transfers[i].orderId == id
  {
    if transfers != [] {
      ActiveIsThere(transfers[..|transfers| - 1], id);
    }
  }

  lemma {:induction false} RepeatsChangeNothing(s: Store, run: seq<Command>, id: OrderId)
    requires forall i :: 0 <= i < |run| ==> run[i].InitiateTransfer? && run[i].id == id
    requires Transfers.ActiveCount(s.transfers, id) >= 1
    ensures Run(s, run) == s
    decreases run
  {
    if run != [] {
      assert run[0].InitiateTransfer? && run[0].id == id;
      assert Step(s, run[0]) == s;
      RepeatsChangeNothing(s, run[1..], id);
    }
  }

  /** Idempotence of the release event: after one payout has been opened, any number of
      further deliveries, with whatever references, changes nothing. */
  lemma RepeatedEventsPayOnce(s: Store, id: OrderId, reference: PaymentRef, hasRecipient: bool,
                              repeats: seq<Command>)
    requires Transfers.TransferVerdict(s, id, reference, hasRecipient).TransferInitiated?
    requires forall i :: 0 <= i < |repeats| ==> repeats[i].InitiateTransfer? && repeats[i].id == id
    ensures
      var paid := Transfers.AfterTransfer(s, id, reference, hasRecipient);
      && paid.transfers == s.transfers + [Transfer(id, reference, s.orders[id].sellerPayout, TransferPending)]
      && Run(paid, repeats) == paid
  {
    CountSnoc(s.transfers, Transfer(id, reference, s.orders[id].sellerPayout, TransferPending), id);
    RepeatsChangeNothing(Transfers.AfterTransfer(s, id, reference, hasRecipient), repeats, id);
  }

  lemma RevivedCount(s: Store, reference: PaymentRef, id: OrderId)
    ensures
      var i := Transfers.IndexOf(s.transfers, reference);
      Transfers.ActiveCount(Transfers.AfterTransferState(s, reference, TransferSuccess).transfers, id) ==
      Transfers.ActiveCount(s.transfers, id)
      + if i.Some? && s.transfers[i.value].orderId == id && s.transfers[i.value].state.TransferFailed? then 1 else 0
  {
    var index := Transfers.IndexOf(s.transfers, reference);
    if index.Some? {
      CountUpdate(s.transfers, index.value, s.transfers[index.value].(state := TransferSuccess), id);
    }
  }

  /** A failed payout that is reported successful after its retry was opened makes two:
      from any reachable state this is the only command that ever does. */
  lemma SecondPayoutIffRevived(s: Store, c: Command, id: OrderId)
    requires Reachable(s)
    ensures Transfers.ActiveCount(Step(s, c).transfers, id) > 1 <==>
      && c.TransferSucceeded? && Transfers.ActiveCount(s.transfers, id) == 1
      && var i := Transfers.IndexOf(s.transfers, c.reference);
         i.Some? && s.transfers[i.value].orderId == id && s.transfers[i.value].state.TransferFailed?
  {
    ReachableInv(s);
    if c.TransferSucceeded? {
      RevivedCount(s, c.reference, id);
    } else if TransferCommand(c) {
      TransfersKept(s, c);
    } else {
      TransfersUntouched(s, c);
    }
  }
}
