/** transfer.service.ts and transfer.listener.ts: payouts to sellers. */
module Transfers {
  import opened Types
  import opened Tables

  predicate Active(t: Transfer) {
    t.state.TransferPending? || t.state.TransferSuccess?
  }

  // The order's transfers that are pending or paid.
  function ActiveCount(transfers: seq<Transfer>, id: OrderId): nat {
    if transfers == [] then 0
    else
      var last := transfers[|transfers| - 1];
      (if last.orderId == id && Active(last) then 1 else 0) + ActiveCount(transfers[..|transfers| - 1], id)
  }

  function ActiveTotal(transfers: seq<Transfer>, id: OrderId): Kobo {
    if transfers == [] then 0
    else
      var last := transfers[|transfers| - 1];
      (if last.orderId == id && Active(last) then last.amount else 0) + ActiveTotal(transfers[..|transfers| - 1], id)
  }

  // findUnique({ reference }): the position of the record, or none.
  function IndexOf(transfers: seq<Transfer>, reference: PaymentRef): (r: Option<nat>)
    ensures r.Some? ==> r.value < |transfers| && transfers[r.value].reference == reference
    ensures r.None? <==> forall i :: 0 <= i < |transfers| ==> transfers[i].reference != reference
  {
    if transfers == [] then None
    else if transfers[|transfers| - 1].reference == reference then Some(|transfers| - 1)
    else IndexOf(transfers[..|transfers| - 1], reference)
  }

  datatype TransferOutcome =
    | TransferInitiated | TransferNoOrder | TransferNotCompleted(status: OrderStatus)
    | TransferNotReleased(escrow: EscrowStatus) | TransferConflict | NoRecipient | TransferReferenceUsed

  // `hasRecipient`: the seller has a cached recipient or bank details Paystack accepts.
  function TransferVerdict(s: Store, id: OrderId, reference: PaymentRef, hasRecipient: bool): TransferOutcome {
    if id !in s.orders then TransferNoOrder
    else if s.orders[id].status != Completed then TransferNotCompleted(s.orders[id].status)
    else if s.orders[id].escrow != Released then TransferNotReleased(s.orders[id].escrow)
    else if ActiveCount(s.transfers, id) > 0 then TransferConflict
    else if !hasRecipient then NoRecipient
    else if IndexOf(s.transfers, reference).Some? then TransferReferenceUsed
    else TransferInitiated
  }

  function AfterTransfer(s: Store, id: OrderId, reference: PaymentRef, hasRecipient: bool): (t: Store)
    ensures SameFrame(s, t)
  {
    if TransferVerdict(s, id, reference, hasRecipient).TransferInitiated?
    then s.(transfers := s.transfers + [Transfer(id, reference, s.orders[id].sellerPayout, TransferPending)])
    else s
  }

  function AfterTransferState(s: Store, reference: PaymentRef, state: TransferState): (t: Store)
    ensures SameFrame(s, t)
  {
    match IndexOf(s.transfers, reference)
    case None => s
    case Some(i) => s.(transfers := s.transfers[i := s.transfers[i].(state := state)])
  }

  class TransferService {
    const db: Database

    constructor (db: Database)
      ensures this.db == db
    {
      this.db := db;
    }

    method InitiateTransfer(id: OrderId, reference: PaymentRef, hasRecipient: bool) returns (r: TransferOutcome)
      modifies db
      ensures r == TransferVerdict(old(db.State()), id, reference, hasRecipient)
      ensures db.State() == AfterTransfer(old(db.State()), id, reference, hasRecipient)
    {
      if id !in db.orders {
        return TransferNoOrder;
      }
      var order := db.orders[id];
      if order.status != Completed {
        return TransferNotCompleted(order.status);
      }
      if order.escrow != Released {
        return TransferNotReleased(order.escrow);
      }
      if ActiveCount(db.transfers, id) > 0 {
        return TransferConflict;
      }
      if !hasRecipient {
        return NoRecipient;
      }
      if IndexOf(db.transfers, reference).Some? {
        return TransferReferenceUsed;
      }
      db.transfers := db.transfers + [Transfer(id, reference, order.sellerPayout, TransferPending)];
      return TransferInitiated;
    }

    // transfer.listener.ts: every failure is logged and swallowed, a duplicate included.
    method OnEscrowReleased(id: OrderId, reference: PaymentRef, hasRecipient: bool)
      modifies db
      ensures db.State() == AfterTransfer(old(db.State()), id, reference, hasRecipient)
    {
      var _ := InitiateTransfer(id, reference, hasRecipient);
    }

    method HandleTransferSuccess(reference: PaymentRef)
      modifies db
      ensures db.State() == AfterTransferState(old(db.State()), reference, TransferSuccess)
    {
      var index := IndexOf(db.transfers, reference);
      if index.None? {
        return;
      }
      var i := index.value;
      if db.transfers[i].state.TransferSuccess? {
        assert db.transfers[i := db.transfers[i].(state := TransferSuccess)] == db.transfers;
        return;
      }
      db.transfers := db.transfers[i := db.transfers[i].(state := TransferSuccess)];
    }

    // transfer.failed and transfer.reversed
    method HandleTransferFailed(reference: PaymentRef)
      modifies db
      ensures db.State() == AfterTransferState(old(db.State()), reference, TransferFailed)
    {
      var index := IndexOf(db.transfers, reference);
      if index.None? {
        return;
      }
      var i := index.value;
      db.transfers := db.transfers[i := db.transfers[i].(state := TransferFailed)];
    }
  }
}
