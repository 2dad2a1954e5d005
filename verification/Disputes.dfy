/** disputes.service.ts: raising a dispute, and resolving it in two stages. */
module Disputes {
  import opened Types
  import opened Tables

  const DISPUTE_WINDOW: Time := 259_200_000   // 72 hours in milliseconds

  datatype RaiseOutcome =
    | Raised | RaiseNoOrder | RaiseNotBuyer | RaiseNotDelivered(status: OrderStatus)
    | NoDeliveryStamp | WindowExpired | DisputeExists

  function RaiseVerdict(s: Store, id: OrderId, user: User): RaiseOutcome {
    if id !in s.orders then RaiseNoOrder
    else
      var order := s.orders[id];
      if order.buyer != Some(user.id) then RaiseNotBuyer
      else if order.status != Delivered then RaiseNotDelivered(order.status)
      else if order.stamps.delivered.None? then NoDeliveryStamp
      else if s.now - order.stamps.delivered.value > DISPUTE_WINDOW then WindowExpired
      else if id in s.disputes then DisputeExists
      else Raised
  }

  function DisputedOrder(order: Order, now: Time): Order {
    order.(status := OrderStatus.Disputed, escrow := EscrowStatus.Disputed,
           stamps := order.stamps.(disputed := Some(now)))
  }

  function AfterRaise(s: Store, id: OrderId, user: User): (t: Store)
    ensures SameFrame(s, t)
  {
    if RaiseVerdict(s, id, user).Raised?
    then s.(disputes := s.disputes[id := Dispute(user.id, Open, None)],
            orders := s.orders[id := DisputedOrder(s.orders[id], s.now)],
            disputeEvents := s.disputeEvents + [RaisedEvent(id, user.id)])
    else s
  }

  // ---------------------------------------------------------- resolve: reading

  datatype ReadOutcome =
    | ReadOk | ReadForbidden | ReadNoOrder | ReadNotDisputed(status: OrderStatus) | ReadNoDispute | AlreadyResolved

  function ReadVerdict(s: Store, id: OrderId, admin: User): ReadOutcome {
    if !admin.isAdmin then ReadForbidden
    else if id !in s.orders then ReadNoOrder
    else if s.orders[id].status != OrderStatus.Disputed then ReadNotDisputed(s.orders[id].status)
    else if id !in s.disputes then ReadNoDispute
    else if s.disputes[id].state.Resolved? then AlreadyResolved
    else ReadOk
  }

  function AfterResolveRead(s: Store, call: nat, id: OrderId, admin: User, resolution: Resolution): (t: Store)
    ensures SameFrame(s, t)
  {
    if ReadVerdict(s, id, admin).ReadOk?
    then s.(resolving := s.resolving + {Ticket(call, id, admin.id, resolution)})
    else s
  }

  // ------------------------------------------------------- resolve: committing

  // A call whose reads have passed commits if the dispute is still open at write time.
  predicate Commits(s: Store, ticket: Ticket) {
    && ticket in s.resolving
    && ticket.orderId in s.orders
    && ticket.orderId in s.disputes
    && s.disputes[ticket.orderId].state.Open?
  }

  function Target(resolution: Resolution): OrderStatus {
    match resolution
    case ForBuyer => OrderStatus.Refunded
    case ForSeller => Completed
  }

  function ResolvedOrder(order: Order, resolution: Resolution, now: Time): Order {
    match resolution
    case ForBuyer =>
      order.(status := OrderStatus.Refunded, escrow := EscrowStatus.Refunded,
             stamps := order.stamps.(refunded := Some(now)))
    case ForSeller =>
      order.(status := Completed, escrow := Released, stamps := order.stamps.(completed := Some(now)))
  }

  function AfterResolveCommit(s: Store, ticket: Ticket): (t: Store)
    ensures SameFrame(s, t)
  {
    var id := ticket.orderId;
    var left := s.(resolving := s.resolving - {ticket});
    if !Commits(s, ticket) then left
    else
      left.(disputes := s.disputes[id := s.disputes[id].(
              state := Resolved(ticket.resolution), resolvedBy := Some(ticket.admin))],
            orders := s.orders[id := ResolvedOrder(s.orders[id], ticket.resolution, s.now)],
            disputeEvents := s.disputeEvents + [ResolvedEvent(id, ticket.admin, ticket.resolution)])
  }

  class DisputesService {
    const db: Database

    constructor (db: Database)
      ensures this.db == db
    {
      this.db := db;
    }

    method Raise(id: OrderId, user: User) returns (r: RaiseOutcome)
      modifies db
      ensures r == RaiseVerdict(old(db.State()), id, user)
      ensures db.State() == AfterRaise(old(db.State()), id, user)
    {
      if id !in db.orders {
        return RaiseNoOrder;
      }
      var order := db.orders[id];
      if order.buyer != Some(user.id) {
        return RaiseNotBuyer;
      }
      if order.status != Delivered {
        return RaiseNotDelivered(order.status);
      }
      if order.stamps.delivered.None? {
        return NoDeliveryStamp;
      }
      if db.now - order.stamps.delivered.value > DISPUTE_WINDOW {
        return WindowExpired;
      }
      if id in db.disputes {
        return DisputeExists;
      }
      db.disputes := db.disputes[id := Dispute(user.id, Open, None)];
      db.orders := db.orders[id := DisputedOrder(order, db.now)];
      db.disputeEvents := db.disputeEvents + [RaisedEvent(id, user.id)];
      return Raised;
    }

    method ResolveRead(call: nat, id: OrderId, admin: User, resolution: Resolution) returns (r: ReadOutcome)
      modifies db
      ensures r == ReadVerdict(old(db.State()), id, admin)
      ensures db.State() == AfterResolveRead(old(db.State()), call, id, admin, resolution)
    {
      if !admin.isAdmin {
        return ReadForbidden;
      }
      if id !in db.orders {
        return ReadNoOrder;
      }
      if db.orders[id].status != OrderStatus.Disputed {
        return ReadNotDisputed(db.orders[id].status);
      }
      if id !in db.disputes {
        return ReadNoDispute;
      }
      if db.disputes[id].state.Resolved? {
        return AlreadyResolved;
      }
      db.resolving := db.resolving + {Ticket(call, id, admin.id, resolution)};
      return ReadOk;
    }

    method ResolveCommit(ticket: Ticket) returns (committed: bool)
      modifies db
      ensures committed == Commits(old(db.State()), ticket)
      ensures db.State() == AfterResolveCommit(old(db.State()), ticket)
    {
      var id := ticket.orderId;
      var inFlight := ticket in db.resolving;
      db.resolving := db.resolving - {ticket};
      // updateMany({ where: { orderId, status: OPEN } }) counts one row or none
      if !inFlight || id !in db.orders || id !in db.disputes || !db.disputes[id].state.Open? {
        return false;
      }
      db.disputes := db.disputes[id := db.disputes[id].(
        state := Resolved(ticket.resolution), resolvedBy := Some(ticket.admin))];
      db.orders := db.orders[id := ResolvedOrder(db.orders[id], ticket.resolution, db.now)];
      db.disputeEvents := db.disputeEvents + [ResolvedEvent(id, ticket.admin, ticket.resolution)];
      return true;
    }
  }
}
