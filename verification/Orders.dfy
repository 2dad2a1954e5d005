/** orders.service.ts: creating an order, moving it along, and confirming it. */
module Orders {
  import opened Types
  import opened Tables
  import opened OrderStateMachine
  import Money
  import Escrow

  // ------------------------------------------------------------------- create

  // CreateOrderDto: prices are at most 9,999,999,999 naira; the columns are Decimal(12, 2).
  const MAX_PRICE: Kobo := 999_999_999_900
  const MAX_DECIMAL: Kobo := 999_999_999_999

  predicate AcceptablePrices(itemPrice: Kobo, deliveryFee: Kobo) {
    0 < itemPrice <= MAX_PRICE && 0 <= deliveryFee <= MAX_PRICE && itemPrice + deliveryFee <= MAX_DECIMAL
  }

  const NO_STAMPS := Stamps(None, None, None, None, None, None, None, None, None, None)

  // `feeUp` and `riderUp` say where an exact half kobo went in the two float products.
  function NewOrder(seller: UserId, buyerEmail: string, itemPrice: Kobo, deliveryFee: Kobo,
                    feeUp: bool, riderUp: bool, now: Time): Order
    requires AcceptablePrices(itemPrice, deliveryFee)
  {
    var total := itemPrice + deliveryFee;
    var fee := Money.FeeOf(total, feeUp);
    Order(seller, None, None, buyerEmail, itemPrice, deliveryFee, total, fee, total - fee,
          Money.RiderShareOf(deliveryFee, riderUp), PendingBuyer, EscrowStatus.Pending,
          NO_STAMPS.(sentToBuyer := Some(now)))
  }

  function AfterCreate(s: Store, id: OrderId, seller: UserId, buyerEmail: string, itemPrice: Kobo,
                       deliveryFee: Kobo, feeUp: bool, riderUp: bool, sellerActive: bool, imagesValid: bool): Store {
    if id in s.orders || !AcceptablePrices(itemPrice, deliveryFee) || !sellerActive || !imagesValid then s
    else s.(orders := s.orders[id := NewOrder(seller, buyerEmail, itemPrice, deliveryFee, feeUp, riderUp, s.now)])
  }

  // ------------------------------------------------------------- updateStatus

  predicate IsParty(order: Order, user: User) {
    order.seller == user.id || order.buyer == Some(user.id) || order.rider == Some(user.id)
  }

  function ContextualRole(order: Order, user: User): Role {
    if user.isAdmin then Admin
    else if order.seller == user.id then Seller
    else if order.buyer == Some(user.id) then Buyer
    else if order.rider == Some(user.id) then Rider
    else NoRole
  }

  // getTimestampForStatus, applied to the order's columns.
  function StampFor(stamps: Stamps, status: OrderStatus, now: Time): Stamps {
    match status
    case Draft => stamps
    case PendingBuyer => stamps.(sentToBuyer := Some(now))
    case AwaitingPayment => stamps.(buyerConfirmed := Some(now))
    case Paid => stamps.(paid := Some(now))
    case Shipped => stamps.(shipped := Some(now))
    case InTransit => stamps.(pickedUp := Some(now))
    case Delivered => stamps.(delivered := Some(now))
    case Completed => stamps.(completed := Some(now))
    case Disputed => stamps.(disputed := Some(now))
    case Cancelled => stamps.(cancelled := Some(now))
    case Refunded => stamps.(refunded := Some(now))
  }

  function MovedOrder(order: Order, next: OrderStatus, now: Time): Order {
    order.(status := next, stamps := StampFor(order.stamps, next, now))
  }

  datatype UpdateOutcome =
    | Updated | UpdateNoOrder | Refused(check: TransitionCheck)
    | ThroughEscrow(outcome: Escrow.ReleaseOutcome) | ClosedWithoutRelease

  function UpdateVerdict(s: Store, id: OrderId, next: OrderStatus, user: User): UpdateOutcome {
    if id !in s.orders then UpdateNoOrder
    else
      var order := s.orders[id];
      if !user.isAdmin && !IsParty(order, user) then UpdateNoOrder
      else
        var check := ValidateTransition(order.status, next, ContextualRole(order, user));
        if !check.Allowed? then Refused(check)
        else if next != Completed then Updated
        else if order.escrow == Holding then ThroughEscrow(Escrow.ReleaseVerdict(s, id))
        else ClosedWithoutRelease
  }

  function AfterUpdate(s: Store, id: OrderId, next: OrderStatus, user: User): (t: Store)
    ensures SameFrame(s, t)
  {
    match UpdateVerdict(s, id, next, user)
    case UpdateNoOrder => s
    case Refused(_) => s
    case ThroughEscrow(_) => Escrow.AfterRelease(s, id, ByBuyer)
    case ClosedWithoutRelease => s.(orders := s.orders[id := MovedOrder(s.orders[id], Completed, s.now)])
    case Updated => s.(orders := s.orders[id := MovedOrder(s.orders[id], next, s.now)])
  }

  // ------------------------------------------------ confirmByBuyer, assignRider

  datatype ConfirmOutcome = Confirmed | ConfirmNoOrder | ConfirmWrongStatus(status: OrderStatus)

  function Lower(c: char): char {
    if 'A' <= c <= 'Z' then (c as int + 32) as char else c
  }

  // The case-insensitive comparison of the query, for the letters of ASCII.
  predicate SameEmail(a: string, b: string) {
    |a| == |b| && forall i :: 0 <= i < |a| ==> Lower(a[i]) == Lower(b[i])
  }

  function ConfirmVerdict(s: Store, id: OrderId, buyer: User): ConfirmOutcome {
    if id !in s.orders || !SameEmail(s.orders[id].buyerEmail, buyer.email) then ConfirmNoOrder
    else if s.orders[id].status != PendingBuyer then ConfirmWrongStatus(s.orders[id].status)
    else Confirmed
  }

  function ConfirmedOrder(order: Order, buyer: UserId, now: Time): Order {
    order.(buyer := Some(buyer), status := AwaitingPayment,
           stamps := order.stamps.(buyerConfirmed := Some(now)))
  }

  function AfterConfirm(s: Store, id: OrderId, buyer: User): (t: Store)
    ensures SameFrame(s, t)
  {
    if ConfirmVerdict(s, id, buyer).Confirmed?
    then s.(orders := s.orders[id := ConfirmedOrder(s.orders[id], buyer.id, s.now)])
    else s
  }

  function AfterAssignRider(s: Store, id: OrderId, rider: UserId, riderActive: bool): (t: Store)
    ensures SameFrame(s, t)
  {
    if id in s.orders && s.orders[id].status == Shipped && riderActive
    then s.(orders := s.orders[id := s.orders[id].(rider := Some(rider))])
    else s
  }

  // ------------------------------------------------------------------ service

  class OrdersService {
    const db: Database
    const escrow: Escrow.EscrowService

    constructor (db: Database, escrow: Escrow.EscrowService)
      requires escrow.db == db
      ensures this.db == db && this.escrow == escrow
    {
      this.db, this.escrow := db, escrow;
    }

    method Create(id: OrderId, seller: UserId, buyerEmail: string, itemPrice: Kobo, deliveryFee: Kobo,
                  feeUp: bool, riderUp: bool, sellerActive: bool, imagesValid: bool)
      modifies db
      ensures db.State() ==
        AfterCreate(old(db.State()), id, seller, buyerEmail, itemPrice, deliveryFee, feeUp, riderUp,
                    sellerActive, imagesValid)
    {
      if !AcceptablePrices(itemPrice, deliveryFee) {
        return;
      }
      if !sellerActive || !imagesValid {
        return;
      }
      if id in db.orders {
        return;
      }
      db.orders := db.orders[id := NewOrder(seller, buyerEmail, itemPrice, deliveryFee, feeUp, riderUp, db.now)];
    }

    method UpdateStatus(id: OrderId, next: OrderStatus, user: User) returns (r: UpdateOutcome)
      requires escrow.db == db
      modifies db
      ensures r == UpdateVerdict(old(db.State()), id, next, user)
      ensures db.State() == AfterUpdate(old(db.State()), id, next, user)
    {
      if id !in db.orders {
        return UpdateNoOrder;
      }
      var order := db.orders[id];
      if !user.isAdmin && !IsParty(order, user) {
        return UpdateNoOrder;
      }
      var check := ValidateTransition(order.status, next, ContextualRole(order, user));
      if !check.Allowed? {
        return Refused(check);
      }
      if next == Completed {
        if order.escrow == Holding {
          var outcome := escrow.ReleaseFunds(id, ByBuyer);
          return ThroughEscrow(outcome);
        }
        db.orders := db.orders[id := MovedOrder(order, Completed, db.now)];
        return ClosedWithoutRelease;
      }
      db.orders := db.orders[id := MovedOrder(order, next, db.now)];
      return Updated;
    }

    method ConfirmByBuyer(id: OrderId, buyer: User) returns (r: ConfirmOutcome)
      modifies db
      ensures r == ConfirmVerdict(old(db.State()), id, buyer)
      ensures db.State() == AfterConfirm(old(db.State()), id, buyer)
    {
      if id !in db.orders || !SameEmail(db.orders[id].buyerEmail, buyer.email) {
        return ConfirmNoOrder;
      }
      var order := db.orders[id];
      if order.status != PendingBuyer {
        return ConfirmWrongStatus(order.status);
      }
      db.orders := db.orders[id := ConfirmedOrder(order, buyer.id, db.now)];
      return Confirmed;
    }

    method AssignRider(id: OrderId, rider: UserId, riderActive: bool)
      modifies db
      ensures db.State() == AfterAssignRider(old(db.State()), id, rider, riderActive)
    {
      if id !in db.orders || db.orders[id].status != Shipped {
        return;
      }
      if !riderActive {
        return;
      }
      db.orders := db.orders[id := db.orders[id].(rider := Some(rider))];
    }
  }
}
