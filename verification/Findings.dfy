/** What each unchecked state lets through: families of runs that settle a hold twice or pay
    out money that was never recorded, each with a reachable state it starts from. */
module Findings {
  import opened Types
  import opened Tables
  import opened OrderStateMachine
  import opened Protocol
  import opened OrderCases
  import opened Invariant
  import opened Safety
  import Escrow
  import Orders
  import Payments
  import Disputes
  import Transfers

  // ------------------------------------------------- a journey after PAID

  function Carry(id: OrderId, admin: User, rest: seq<Command>): seq<Command> {
    [UpdateStatus(id, Shipped, admin)]
    + ([UpdateStatus(id, InTransit, admin)]
       + ([UpdateStatus(id, Delivered, admin)] + rest))
  }

  function Carried(order: Order, now: Time): Order {
    order.(status := Delivered,
           stamps := order.stamps.(shipped := Some(now), pickedUp := Some(now), delivered := Some(now)))
  }

  lemma CarryThen(s: Store, id: OrderId, admin: User, rest: seq<Command>)
    requires id in s.orders && s.orders[id].status == Paid && admin.isAdmin
    ensures Run(s, Carry(id, admin, rest)) == Run(s.(orders := s.orders[id := Carried(s.orders[id], s.now)]), rest)
  {
    var last := [UpdateStatus(id, Delivered, admin)] + rest;
    AdminMoves(s, id, Shipped, admin);
    var a := s.(orders := s.orders[id := Orders.MovedOrder(s.orders[id], Shipped, s.now)]);
    AdminMoves(a, id, InTransit, admin);
    var b := a.(orders := a.orders[id := Orders.MovedOrder(a.orders[id], InTransit, s.now)]);
    AdminMoves(b, id, Delivered, admin);
    var c := b.(orders := b.orders[id := Orders.MovedOrder(b.orders[id], Delivered, s.now)]);
    RunCons(s, UpdateStatus(id, Shipped, admin), [UpdateStatus(id, InTransit, admin)] + last);
    RunCons(a, UpdateStatus(id, InTransit, admin), last);
    RunCons(b, UpdateStatus(id, Delivered, admin), rest);
    assert c.orders == s.orders[id := Carried(s.orders[id], s.now)];
  }

  // ------------------------------------------------- runs, a command at a time

  lemma RaiseThen(s: Store, id: OrderId, buyer: User, rest: seq<Command>)
    ensures Run(s, [Command.RaiseDispute(id, buyer)] + rest) == Run(Disputes.AfterRaise(s, id, buyer), rest)
    ensures Step(s, Command.RaiseDispute(id, buyer)) == Disputes.AfterRaise(s, id, buyer)
  {
    RunCons(s, Command.RaiseDispute(id, buyer), rest);
  }

  lemma RefundThen(s: Store, id: OrderId, rest: seq<Command>)
    ensures Run(s, [RefundFunds(id)] + rest) == Run(Escrow.AfterRefund(s, id), rest)
    ensures Step(s, RefundFunds(id)) == Escrow.AfterRefund(s, id)
  {
    RunCons(s, RefundFunds(id), rest);
  }

  lemma ReadThen(s: Store, call: nat, id: OrderId, admin: User, resolution: Resolution, rest: seq<Command>)
    ensures Run(s, [ResolveRead(call, id, admin, resolution)] + rest) ==
            Run(Disputes.AfterResolveRead(s, call, id, admin, resolution), rest)
    ensures Step(s, ResolveRead(call, id, admin, resolution)) ==
            Disputes.AfterResolveRead(s, call, id, admin, resolution)
  {
    RunCons(s, ResolveRead(call, id, admin, resolution), rest);
  }

  lemma CommitThen(s: Store, ticket: Ticket, rest: seq<Command>)
    ensures Run(s, [ResolveCommit(ticket)] + rest) == Run(Disputes.AfterResolveCommit(s, ticket), rest)
    ensures Step(s, ResolveCommit(ticket)) == Disputes.AfterResolveCommit(s, ticket)
  {
    RunCons(s, ResolveCommit(ticket), rest);
  }

  lemma TransferThen(s: Store, id: OrderId, reference: PaymentRef, rest: seq<Command>)
    ensures Run(s, [InitiateTransfer(id, reference, true)] + rest) ==
            Run(Transfers.AfterTransfer(s, id, reference, true), rest)
    ensures Step(s, InitiateTransfer(id, reference, true)) == Transfers.AfterTransfer(s, id, reference, true)
  {
    RunCons(s, InitiateTransfer(id, reference, true), rest);
  }

  // ------------------------------------------------- a late poll pays twice

  // Carried from PAID, disputed by its buyer and refunded, all at the same time.
  function SentBack(id: OrderId, admin: User, buyer: User): seq<Command> {
    Carry(id, admin, [Command.RaiseDispute(id, buyer)] + ([RefundFunds(id)] + []))
  }

  // The order delivered and disputed by its buyer, both at this moment.
  function DeliveredAndDisputed(s: Store, id: OrderId, buyer: User): Store
    requires id in s.orders
  {
    Disputes.AfterRaise(s.(orders := s.orders[id := Carried(s.orders[id], s.now)]), id, buyer)
  }

  lemma DisputedState(s: Store, id: OrderId, buyer: User)
    requires id in s.orders && s.orders[id].buyer == Some(buyer.id) && id !in s.disputes
    ensures
      var t := DeliveredAndDisputed(s, id, buyer);
      && id in t.orders && t.orders[id].status == OrderStatus.Disputed && t.orders[id].escrow == EscrowStatus.Disputed
      && id in t.disputes && t.disputes[id].state.Open?
      && t.orders[id].sellerPayout == s.orders[id].sellerPayout
      && t.ledger == s.ledger && t.transfers == s.transfers && t.now == s.now
  {
  }

  lemma DisputedThen(s: Store, id: OrderId, admin: User, buyer: User, rest: seq<Command>)
    requires id in s.orders && s.orders[id].status == Paid && admin.isAdmin
    ensures Run(s, Carry(id, admin, [Command.RaiseDispute(id, buyer)] + rest)) ==
            Run(DeliveredAndDisputed(s, id, buyer), rest)
  {
    CarryThen(s, id, admin, [Command.RaiseDispute(id, buyer)] + rest);
    RaiseThen(s.(orders := s.orders[id := Carried(s.orders[id], s.now)]), id, buyer, rest);
  }

  lemma DisputedRefunds(s: Store, id: OrderId)
    requires id in s.orders && s.orders[id].status == OrderStatus.Disputed
    requires s.orders[id].escrow == EscrowStatus.Disputed && FindHold(s.ledger, id).Some?
    ensures Escrow.AfterRefund(s, id).ledger ==
            s.ledger + [Escrow.RefundRow(FindHold(s.ledger, id).value, id, s.now)]
  {
  }

  lemma SentBackRefunds(s: Store, id: OrderId, admin: User, buyer: User)
    requires id in s.orders && s.orders[id].status == Paid && admin.isAdmin
    requires s.orders[id].buyer == Some(buyer.id) && id !in s.disputes && FindHold(s.ledger, id).Some?
    ensures Run(s, SentBack(id, admin, buyer)).ledger ==
            s.ledger + [Escrow.RefundRow(FindHold(s.ledger, id).value, id, s.now)]
  {
    DisputedThen(s, id, admin, buyer, [RefundFunds(id)] + []);
    DisputedState(s, id, buyer);
    RefundThen(DeliveredAndDisputed(s, id, buyer), id, []);
    DisputedRefunds(DeliveredAndDisputed(s, id, buyer), id);
  }

  /** The order has been paid out; a second payment record of it is then polled and
      confirmed. The order is PAID again, can be delivered again, and a dispute then
      refunds the hold that was already released: the same hold is settled twice. (The late
      payment itself, if it is another one, leaves no hold row.) */
  lemma LatePollPaysTwice(s: Store, poll: Command, admin: User, buyer: User)
    requires Inv(s) && poll.VerifyByReference? && Payments.Confirms(s, poll.reference, poll.v)
    requires
      var id := s.payments[poll.reference].orderId;
      && s.orders[id].status == Completed && |Rows(s.ledger, id)| == 3
      && s.orders[id].buyer == Some(buyer.id) && admin.isAdmin
    ensures
      var id := s.payments[poll.reference].orderId;
      var rows := Rows(s.ledger, id);
      && PaidOut(s.orders[id], rows)
      && Rows(Run(Step(s, poll), SentBack(id, admin, buyer)).ledger, id) ==
         rows + [Escrow.RefundRow(rows[0], id, s.now)]
  {
    var id := s.payments[poll.reference].orderId;
    assert CaseInv(CaseOf(s, id), s.now);
    Payments.PollingHoldDeclines(s, poll.reference, poll.v, poll.oneKoboOver);
    var t := Payments.MarkPaid(s, poll.reference, poll.v.PollTime().value);
    assert Step(s, poll) == t;
    SentBackRefunds(t, id, admin, buyer);
    RowsSnoc(s.ledger, Escrow.RefundRow(Rows(s.ledger, id)[0], id, s.now), id);
  }

  // ------------------------------------- a stale resolve call pays twice

  /** An administrator has read a dispute in order to decide for the seller; a colleague
      refunds the buyer before the decision is committed. The commit still succeeds, the
      order is COMPLETED and RELEASED, and the seller's payout is opened as well. */
  lemma StaleCommitPaysTwice(s: Store, ticket: Ticket, reference: PaymentRef)
    requires Inv(s) && ticket in s.resolving && ticket.resolution == ForSeller
    requires
      var id := ticket.orderId;
      && Disputes.Commits(s, ticket) && Escrow.RefundVerdict(s, id).RefundDone?
      && Transfers.ActiveCount(s.transfers, id) == 0 && Transfers.IndexOf(s.transfers, reference).None?
    ensures
      var id := ticket.orderId;
      var t := Run(s, [RefundFunds(id)] + ([ResolveCommit(ticket)] + ([InitiateTransfer(id, reference, true)] + [])));
      && Rows(t.ledger, id) == Rows(s.ledger, id) + [Escrow.RefundRow(Rows(s.ledger, id)[0], id, s.now)]
      && id in t.orders && t.orders[id].status == Completed && t.orders[id].escrow == Released
      && t.transfers == s.transfers + [Transfer(id, reference, s.orders[id].sellerPayout, TransferPending)]
  {
    var id := ticket.orderId;
    SettledFromHeld(s, id);
    var row := Escrow.RefundRow(Rows(s.ledger, id)[0], id, s.now);
    RowsSnoc(s.ledger, row, id);
    var refunded := Escrow.AfterRefund(s, id);
    var resolved := Disputes.AfterResolveCommit(refunded, ticket);
    RefundThen(s, id, [ResolveCommit(ticket)] + ([InitiateTransfer(id, reference, true)] + []));
    CommitThen(refunded, ticket, [InitiateTransfer(id, reference, true)] + []);
    TransferThen(resolved, id, reference, []);
    assert Transfers.TransferVerdict(resolved, id, reference, true).TransferInitiated?;
  }

  // ------------------------- an administrator's PAID is paid out unfunded

  // Decided for the seller by the administrator and paid out.
  function Awarded(id: OrderId, admin: User, call: nat, reference: PaymentRef): seq<Command> {
    [ResolveRead(call, id, admin, ForSeller)]
    + ([ResolveCommit(Ticket(call, id, admin.id, ForSeller))] + ([InitiateTransfer(id, reference, true)] + []))
  }

  /** From PAID an order can be delivered, disputed, resolved for the seller and paid out
      without one more ledger row. An order that an administrator moved to PAID by hand has
      no row at all: its seller is paid although no money was ever recorded. */
  lemma UnfundedPayout(s: Store, id: OrderId, admin: User, buyer: User, call: nat, reference: PaymentRef)
    requires id in s.orders && s.orders[id].status == Paid && admin.isAdmin
    requires s.orders[id].buyer == Some(buyer.id) && id !in s.disputes
    requires Transfers.ActiveCount(s.transfers, id) == 0 && Transfers.IndexOf(s.transfers, reference).None?
    ensures
      var t := Run(s, Carry(id, admin, [Command.RaiseDispute(id, buyer)] + Awarded(id, admin, call, reference)));
      && t.ledger == s.ledger
      && t.transfers == s.transfers + [Transfer(id, reference, s.orders[id].sellerPayout, TransferPending)]
  {
    DisputedThen(s, id, admin, buyer, Awarded(id, admin, call, reference));
    DisputedState(s, id, buyer);
    var disputed := DeliveredAndDisputed(s, id, buyer);
    ReadThen(disputed, call, id, admin, ForSeller, Awarded(id, admin, call, reference)[1..]);
    UnfundedResolution(disputed, id, admin, call, reference);
  }

  lemma UnfundedResolution(s: Store, id: OrderId, admin: User, call: nat, reference: PaymentRef)
    requires Disputes.ReadVerdict(s, id, admin).ReadOk? && s.disputes[id].state.Open?
    requires Transfers.ActiveCount(s.transfers, id) == 0 && Transfers.IndexOf(s.transfers, reference).None?
    ensures
      var t := Run(s, Awarded(id, admin, call, reference));
      && t.ledger == s.ledger
      && t.transfers == s.transfers + [Transfer(id, reference, s.orders[id].sellerPayout, TransferPending)]
  {
    var ticket := Ticket(call, id, admin.id, ForSeller);
    var last := [InitiateTransfer(id, reference, true)] + [];
    var read := Disputes.AfterResolveRead(s, call, id, admin, ForSeller);
    var resolved := Disputes.AfterResolveCommit(read, ticket);
    ReadThen(s, call, id, admin, ForSeller, [ResolveCommit(ticket)] + last);
    CommitThen(read, ticket, last);
    TransferThen(resolved, id, reference, []);
    assert Transfers.TransferVerdict(resolved, id, reference, true).TransferInitiated?;
  }
}
