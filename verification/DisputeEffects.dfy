/** What each dispute and each payout command leaves in the tables, field by field. */
module DisputeEffects {
  import opened Types
  import opened Tables
  import opened Protocol
  import Disputes
  import Transfers

  // ------------------------------------------------------------------- raise

  predicate Delivers(s: Store, id: OrderId, user: User) {
    && id in s.orders && s.orders[id].buyer == Some(user.id) && s.orders[id].status == Delivered
  }

  predicate InTime(s: Store, id: OrderId)
    requires id in s.orders
  {
    s.orders[id].stamps.delivered != None && s.now - s.orders[id].stamps.delivered.value <= 72 * 60 * 60 * 1000
  }

  /** A dispute is raised if and only if the user is the order's buyer, the order is DELIVERED,
      for at most 72 hours, and has no dispute yet. */
  lemma RaiseExactly(s: Store, id: OrderId, user: User)
    ensures
      Step(s, RaiseDispute(id, user)) ==
      if Delivers(s, id, user) && InTime(s, id) && id !in s.disputes then
        s.(disputes := s.disputes[id := Dispute(user.id, Open, None)],
           orders := s.orders[id := s.orders[id].(
             status := OrderStatus.Disputed, escrow := EscrowStatus.Disputed,
             stamps := s.orders[id].stamps.(disputed := Some(s.now)))],
           disputeEvents := s.disputeEvents + [RaisedEvent(id, user.id)])
      else s
  {
  }

  lemma RaiseAnswer(s: Store, id: OrderId, user: User)
    ensures match Disputes.RaiseVerdict(s, id, user)
      case RaiseNoOrder => id !in s.orders
      case RaiseNotBuyer => id in s.orders && s.orders[id].buyer != Some(user.id)
      case RaiseNotDelivered(status) =>
        && id in s.orders && s.orders[id].buyer == Some(user.id)
        && status == s.orders[id].status && status != Delivered
      case NoDeliveryStamp => Delivers(s, id, user) && s.orders[id].stamps.delivered == None
      case WindowExpired =>
        && Delivers(s, id, user) && s.orders[id].stamps.delivered != None
        && s.now > s.orders[id].stamps.delivered.value + 259_200_000
      case DisputeExists => Delivers(s, id, user) && InTime(s, id) && id in s.disputes
      case Raised => Delivers(s, id, user) && InTime(s, id) && id !in s.disputes
  {
  }

  // ----------------------------------------------------------------- resolve

  predicate Undecided(s: Store, id: OrderId) {
    && id in s.orders && s.orders[id].status == OrderStatus.Disputed
    && id in s.disputes && !s.disputes[id].state.Resolved?
  }

  /** A decision can be under way only for an administrator and an undecided dispute. */
  lemma ResolveReadExactly(s: Store, call: nat, id: OrderId, user: User, resolution: Resolution)
    ensures
      Step(s, ResolveRead(call, id, user, resolution)) ==
      if user.isAdmin && Undecided(s, id)
      then s.(resolving := s.resolving + {Ticket(call, id, user.id, resolution)})
      else s
  {
  }

  lemma ResolveReadAnswer(s: Store, id: OrderId, user: User)
    ensures match Disputes.ReadVerdict(s, id, user)
      case ReadForbidden => !user.isAdmin
      case ReadNoOrder => user.isAdmin && id !in s.orders
      case ReadNotDisputed(status) =>
        user.isAdmin && id in s.orders && status == s.orders[id].status && status != OrderStatus.Disputed
      case ReadNoDispute =>
        user.isAdmin && id in s.orders && s.orders[id].status == OrderStatus.Disputed && id !in s.disputes
      case AlreadyResolved =>
        && user.isAdmin && id in s.orders && s.orders[id].status == OrderStatus.Disputed
        && id in s.disputes && s.disputes[id].state.Resolved?
      case ReadOk => user.isAdmin && Undecided(s, id)
  {
  }

  /** A decision under way is committed if and only if the dispute is still OPEN: for the
      buyer the order becomes REFUNDED, for the seller COMPLETED and RELEASED, and no ledger
      or audit row is written. */
  lemma ResolveCommitExactly(s: Store, ticket: Ticket)
    ensures
      var id := ticket.orderId;
      var left := s.(resolving := s.resolving - {ticket});
      Step(s, ResolveCommit(ticket)) ==
      if ticket in s.resolving && id in s.orders && id in s.disputes && s.disputes[id].state == Open then
        left.(disputes := s.disputes[id := Dispute(s.disputes[id].raisedBy, Resolved(ticket.resolution),
                                                   Some(ticket.admin))],
              orders := s.orders[id :=
                if ticket.resolution == ForBuyer
                then s.orders[id].(status := OrderStatus.Refunded, escrow := EscrowStatus.Refunded,
                                   stamps := s.orders[id].stamps.(refunded := Some(s.now)))
                else s.orders[id].(status := Completed, escrow := Released,
                                   stamps := s.orders[id].stamps.(completed := Some(s.now)))],
              disputeEvents := s.disputeEvents + [ResolvedEvent(id, ticket.admin, ticket.resolution)])
      else left
    ensures Disputes.Commits(s, ticket) <==>
      var id := ticket.orderId;
      ticket in s.resolving && id in s.orders && id in s.disputes && s.disputes[id].state == Open
  {
  }

  // ------------------------------------------------------------------ payouts

  predicate HasActive(transfers: seq<Transfer>, id: OrderId) {
    exists i :: 0 <= i < |transfers| && transfers[i].orderId == id
                && (transfers[i].state == TransferPending || transfers[i].state == TransferSuccess)
  }

  predicate Recorded(transfers: seq<Transfer>, reference: PaymentRef) {
    exists i :: 0 <= i < |transfers| && transfers[i].reference == reference
  }

  lemma {:induction false} ActiveIffCounted(transfers: seq<Transfer>, id: OrderId)
    ensures Transfers.ActiveCount(transfers, id) > 0 <==> HasActive(transfers, id)
  {
    if transfers != [] {
      var n := |transfers| - 1;
      ActiveIffCounted(transfers[..n], id);
      if HasActive(transfers[..n], id) {
        var i :| 0 <= i < n && transfers[..n][i].orderId == id
                 && (transfers[..n][i].state == TransferPending || transfers[..n][i].state == TransferSuccess);
        assert transfers[i] == transfers[..n][i];
      }
      if HasActive(transfers, id) {
        var i :| 0 <= i <= n && transfers[i].orderId == id
                 && (transfers[i].state == TransferPending || transfers[i].state == TransferSuccess);
        assert i < n ==> transfers[..n][i] == transfers[i];
      }
    }
  }

  /** A payout of sellerPayout is opened, PENDING, if and only if the order is COMPLETED and
      RELEASED, none of its transfers is pending or paid, there is somebody to pay, and the
      reference is new. */
  lemma TransferExactly(s: Store, id: OrderId, reference: PaymentRef, hasRecipient: bool)
    ensures
      Step(s, InitiateTransfer(id, reference, hasRecipient)) ==
      if id in s.orders && s.orders[id].status == Completed && s.orders[id].escrow == Released
         && !HasActive(s.transfers, id) && hasRecipient && !Recorded(s.transfers, reference)
      then s.(transfers := s.transfers + [Transfer(id, reference, s.orders[id].sellerPayout, TransferPending)])
      else s
  {
    ActiveIffCounted(s.transfers, id);
  }

  lemma TransferAnswer(s: Store, id: OrderId, reference: PaymentRef, hasRecipient: bool)
    ensures match Transfers.TransferVerdict(s, id, reference, hasRecipient)
      case TransferNoOrder => id !in s.orders
      case TransferNotCompleted(status) => id in s.orders && status == s.orders[id].status && status != Completed
      case TransferNotReleased(escrow) =>
        id in s.orders && s.orders[id].status == Completed && escrow == s.orders[id].escrow && escrow != Released
      case TransferConflict =>
        && id in s.orders && s.orders[id].status == Completed && s.orders[id].escrow == Released
        && HasActive(s.transfers, id)
      case NoRecipient =>
        && id in s.orders && s.orders[id].status == Completed && s.orders[id].escrow == Released
        && !HasActive(s.transfers, id) && !hasRecipient
      case TransferReferenceUsed =>
        && id in s.orders && s.orders[id].status == Completed && s.orders[id].escrow == Released
        && !HasActive(s.transfers, id) && hasRecipient && Recorded(s.transfers, reference)
      case TransferInitiated =>
        && id in s.orders && s.orders[id].status == Completed && s.orders[id].escrow == Released
        && !HasActive(s.transfers, id) && hasRecipient && !Recorded(s.transfers, reference)
  {
    ActiveIffCounted(s.transfers, id);
  }

  // The one record of a reference.
  predicate OnlyRecord(transfers: seq<Transfer>, i: nat, reference: PaymentRef) {
    && i < |transfers| && transfers[i].reference == reference
    && forall j :: 0 <= j < |transfers| && transfers[j].reference == reference ==> j == i
  }

  /** Paystack's later word sets the state of the reference's record, from whatever it was,
      and nothing else; without a record it sets nothing. */
  lemma TransferEventExactly(s: Store, reference: PaymentRef, i: nat)
    requires OnlyRecord(s.transfers, i, reference)
    ensures Step(s, TransferSucceeded(reference)) ==
            s.(transfers := s.transfers[i := s.transfers[i].(state := TransferSuccess)])
    ensures Step(s, TransferFailedOrReversed(reference)) ==
            s.(transfers := s.transfers[i := s.transfers[i].(state := TransferFailed)])
  {
    assert Transfers.IndexOf(s.transfers, reference) == Some(i);
  }

  lemma UnknownTransferChangesNothing(s: Store, reference: PaymentRef)
    requires !Recorded(s.transfers, reference)
    ensures Step(s, TransferSucceeded(reference)) == s
    ensures Step(s, TransferFailedOrReversed(reference)) == s
  {
    assert Transfers.IndexOf(s.transfers, reference).None?;
  }
}
