/** What each order command leaves in the tables, field by field, and who may make it. */
module OrderEffects {
  import opened Types
  import opened Tables
  import opened Protocol
  import opened EscrowEffects
  import Machine = OrderStateMachine
  import Escrow
  import Orders

  // ------------------------------------------------------------------- create

  predicate Acceptable(s: Store, c: Command)
    requires c.Create?
  {
    && c.id !in s.orders && c.sellerActive && c.imagesValid
    && 1 <= c.itemPrice <= 9_999_999_999 * 100 && 0 <= c.deliveryFee <= 9_999_999_999 * 100
    && c.itemPrice + c.deliveryFee <= 10_000_000_000 * 100 - 1
  }

  // `share` is n/d of `amount` to the nearest kobo, halves going up or down.
  predicate IsShare(share: Kobo, n: int, d: int, amount: Kobo, up: bool) {
    var rest := 2 * (d * share - n * amount);
    if up then -d < rest <= d else -d <= rest < d
  }

  /** A new order is made if and only if the request is acceptable: PENDING_BUYER and unpaid,
      with the prices asked, five percent of the total for the platform, the rest for the
      seller, and nine tenths of the delivery fee for the rider. */
  lemma CreateExactly(s: Store, c: Command)
    requires c.Create?
    ensures !Acceptable(s, c) ==> Step(s, c) == s
    ensures Acceptable(s, c) ==>
      var t := Step(s, c);
      && c.id in t.orders
      && var order := t.orders[c.id];
      && t == s.(orders := s.orders[c.id := order])
      && order.seller == c.seller && order.buyer == None && order.rider == None && order.buyerEmail == c.buyerEmail
      && order.itemPrice == c.itemPrice && order.deliveryFee == c.deliveryFee
      && order.total == c.itemPrice + c.deliveryFee
      && IsShare(order.platformFee, 1, 20, order.total, c.feeUp)
      && order.sellerPayout == order.total - order.platformFee
      && IsShare(order.riderPayout, 9, 10, order.deliveryFee, c.riderUp)
      && order.status == PendingBuyer && order.escrow == EscrowStatus.Pending
      && order.stamps == Stamps(Some(s.now), None, None, None, None, None, None, None, None, None)
  {
  }

  // ------------------------------------------------------------- updateStatus

  datatype Relation = AsAdmin | AsSeller | AsBuyer | AsRider | AsStranger

  // An administrator is one whatever else he is; then the seller comes first, then the buyer.
  function RelationOf(order: Order, user: User): Relation {
    if user.isAdmin then AsAdmin
    else if user.id == order.seller then AsSeller
    else if Some(user.id) == order.buyer then AsBuyer
    else if Some(user.id) == order.rider then AsRider
    else AsStranger
  }

  // Every permitted move, and by whom.
  predicate Permitted(from: OrderStatus, target: OrderStatus, who: Relation) {
    match (from, target)
    case (Draft, PendingBuyer) => who in {AsSeller, AsAdmin}
    case (Draft, Cancelled) => who in {AsSeller, AsAdmin}
    case (PendingBuyer, AwaitingPayment) => who in {AsBuyer, AsAdmin}
    case (PendingBuyer, Cancelled) => who in {AsSeller, AsBuyer, AsAdmin}
    case (AwaitingPayment, Paid) => who == AsAdmin
    case (AwaitingPayment, Cancelled) => who in {AsSeller, AsBuyer, AsAdmin}
    case (Paid, Shipped) => who in {AsSeller, AsAdmin}
    case (Paid, Refunded) => who == AsAdmin
    case (Shipped, InTransit) => who in {AsRider, AsAdmin}
    case (InTransit, Delivered) => who in {AsRider, AsAdmin}
    case (Delivered, Completed) => who in {AsBuyer, AsAdmin}
    case (Delivered, Disputed) => who in {AsBuyer, AsSeller, AsAdmin}
    case (Disputed, Completed) => who == AsAdmin
    case (Disputed, Refunded) => who == AsAdmin
    case _ => false
  }

  // The one timestamp that a move sets.
  function Stamped(stamps: Stamps, target: OrderStatus, now: Time): Stamps {
    if target == PendingBuyer then stamps.(sentToBuyer := Some(now))
    else if target == AwaitingPayment then stamps.(buyerConfirmed := Some(now))
    else if target == Paid then stamps.(paid := Some(now))
    else if target == Shipped then stamps.(shipped := Some(now))
    else if target == InTransit then stamps.(pickedUp := Some(now))
    else if target == Delivered then stamps.(delivered := Some(now))
    else if target == Completed then stamps.(completed := Some(now))
    else if target == OrderStatus.Disputed then stamps.(disputed := Some(now))
    else if target == Cancelled then stamps.(cancelled := Some(now))
    else if target == OrderStatus.Refunded then stamps.(refunded := Some(now))
    else stamps
  }

  lemma PermittedIsAllowed(from: OrderStatus, target: OrderStatus, order: Order, user: User)
    ensures Machine.ValidateTransition(from, target, Orders.ContextualRole(order, user)).Allowed? <==>
            Permitted(from, target, RelationOf(order, user))
  {
  }

  lemma StampedIsStampFor(stamps: Stamps, target: OrderStatus, now: Time)
    ensures Orders.StampFor(stamps, target, now) == Stamped(stamps, target, now)
  {
  }

  // The tables after a plain move.
  function MovedTo(s: Store, id: OrderId, next: OrderStatus): Store
    requires id in s.orders
  {
    s.(orders := s.orders[id := s.orders[id].(status := next, stamps := Stamped(s.orders[id].stamps, next, s.now))])
  }

  lemma RefusedChangesNothing(s: Store, id: OrderId, next: OrderStatus, user: User)
    requires id !in s.orders || !Permitted(s.orders[id].status, next, RelationOf(s.orders[id], user))
    ensures Orders.AfterUpdate(s, id, next, user) == s
  {
    if id in s.orders {
      PermittedIsAllowed(s.orders[id].status, next, s.orders[id], user);
    }
  }

  lemma PermittedMoves(s: Store, id: OrderId, next: OrderStatus, user: User)
    requires id in s.orders && Permitted(s.orders[id].status, next, RelationOf(s.orders[id], user))
    ensures Orders.AfterUpdate(s, id, next, user) ==
            if next == Completed && s.orders[id].escrow == Holding then Escrow.AfterRelease(s, id, ByBuyer)
            else MovedTo(s, id, next)
  {
    PermittedIsAllowed(s.orders[id].status, next, s.orders[id], user);
    StampedIsStampFor(s.orders[id].stamps, next, s.now);
  }

  /** A status change takes effect if and only if the move is on the list for the user's
      relation to the order, and then it sets the status and one timestamp. COMPLETED with
      HOLDING is a release instead, which in turn needs the order to be releasable. */
  lemma MoveExactly(s: Store, id: OrderId, next: OrderStatus, user: User)
    ensures
      Step(s, UpdateStatus(id, next, user)) ==
      if id !in s.orders || !Permitted(s.orders[id].status, next, RelationOf(s.orders[id], user)) then s
      else if next != Completed || s.orders[id].escrow != Holding then MovedTo(s, id, next)
      else if Releasable(s, id) then PaidOutBy(s, id, ByBuyer).(jobs := s.jobs - {id})
      else s
  {
    UpdateStep(s, id, next, user);
    if id !in s.orders || !Permitted(s.orders[id].status, next, RelationOf(s.orders[id], user)) {
      RefusedChangesNothing(s, id, next, user);
    } else {
      PermittedMoves(s, id, next, user);
      ReleaseExactly(s, id, ByBuyer);
    }
  }

  // A move that nobody may make is invalid; one that only others may make is forbidden.
  lemma CheckAnswer(order: Order, target: OrderStatus, user: User)
    ensures Machine.ValidateTransition(order.status, target, Orders.ContextualRole(order, user)) ==
            if Permitted(order.status, target, RelationOf(order, user)) then Machine.Allowed
            else if Permitted(order.status, target, AsAdmin) then Machine.ForbiddenRole
            else Machine.InvalidTransition
  {
    PermittedIsAllowed(order.status, target, order, user);
    PermittedIsAllowed(order.status, target, order, user.(isAdmin := true));
  }

  /** Each answer to a status change is given exactly when its condition holds. */
  lemma MoveAnswer(s: Store, id: OrderId, next: OrderStatus, user: User)
    ensures match Orders.UpdateVerdict(s, id, next, user)
      case UpdateNoOrder => id !in s.orders || RelationOf(s.orders[id], user) == AsStranger
      case Refused(check) =>
        && id in s.orders && RelationOf(s.orders[id], user) != AsStranger
        && !Permitted(s.orders[id].status, next, RelationOf(s.orders[id], user))
        && (check == if Permitted(s.orders[id].status, next, AsAdmin) then Machine.ForbiddenRole
                     else Machine.InvalidTransition)
      case ThroughEscrow(outcome) =>
        && id in s.orders && Permitted(s.orders[id].status, next, RelationOf(s.orders[id], user))
        && next == Completed && s.orders[id].escrow == Holding && (outcome.ReleaseDone? <==> Releasable(s, id))
      case ClosedWithoutRelease =>
        && id in s.orders && Permitted(s.orders[id].status, next, RelationOf(s.orders[id], user))
        && next == Completed && s.orders[id].escrow != Holding
      case Updated =>
        && id in s.orders && Permitted(s.orders[id].status, next, RelationOf(s.orders[id], user))
        && next != Completed
  {
    if id in s.orders {
      CheckAnswer(s.orders[id], next, user);
      ReleaseAnswer(s, id);
    }
  }

  // What each named action does.
  predicate Performs(from: OrderStatus, action: Machine.Action, target: OrderStatus) {
    match action
    case SendToBuyer => from == Draft && target == PendingBuyer
    case ConfirmOrder => from == PendingBuyer && target == AwaitingPayment
    case PaymentConfirmed => from == AwaitingPayment && target == Paid
    case Ship => from == Paid && target == Shipped
    case Pickup => from == Shipped && target == InTransit
    case Deliver => from == InTransit && target == Delivered
    case ConfirmSatisfaction => from == Delivered && target == Completed
    case RaiseDispute => from == Delivered && target == OrderStatus.Disputed
    case ResolveSeller => from == OrderStatus.Disputed && target == Completed
    case ResolveBuyer => from == OrderStatus.Disputed && target == OrderStatus.Refunded
    case Cancel =>
      (from in {Draft, PendingBuyer, AwaitingPayment} && target == Cancelled)
      || (from == Paid && target == OrderStatus.Refunded)
  }

  predicate BeforeDelivery(status: OrderStatus) {
    status in {Draft, PendingBuyer, AwaitingPayment, Paid, Shipped}
  }

  lemma EarlyActionsAre(from: OrderStatus, action: Machine.Action, target: OrderStatus)
    requires BeforeDelivery(from)
    ensures Machine.TransitionOrderStatus(from, action) == Some(target) <==> Performs(from, action, target)
  {
  }

  lemma LateActionsAre(from: OrderStatus, action: Machine.Action, target: OrderStatus)
    requires !BeforeDelivery(from)
    ensures Machine.TransitionOrderStatus(from, action) == Some(target) <==> Performs(from, action, target)
  {
  }

  lemma ActionsAre(from: OrderStatus, action: Machine.Action, target: OrderStatus)
    ensures Machine.TransitionOrderStatus(from, action) == Some(target) <==> Performs(from, action, target)
  {
    if BeforeDelivery(from) {
      EarlyActionsAre(from, action, target);
    } else {
      LateActionsAre(from, action, target);
    }
  }

  // ------------------------------------------------ confirmByBuyer, assignRider

  // The same letter, or the same letter of ASCII in the other case.
  predicate SameLetter(a: char, b: char) {
    || a == b
    || ('A' <= a <= 'Z' && b as int == a as int + 32)
    || ('A' <= b <= 'Z' && a as int == b as int + 32)
  }

  predicate SameText(a: string, b: string) {
    |a| == |b| && forall i :: 0 <= i < |a| ==> SameLetter(a[i], b[i])
  }

  lemma SameTextIsSameEmail(a: string, b: string)
    ensures Orders.SameEmail(a, b) <==> SameText(a, b)
  {
    if |a| == |b| {
      forall i | 0 <= i < |a|
        ensures Orders.Lower(a[i]) == Orders.Lower(b[i]) <==> SameLetter(a[i], b[i])
      {
      }
    }
  }

  /** Whoever owns the e-mail address the order was sent to becomes its buyer, if and only if
      the order is still PENDING_BUYER. */
  lemma ConfirmExactly(s: Store, id: OrderId, user: User)
    ensures
      Step(s, ConfirmByBuyer(id, user)) ==
      if id in s.orders && SameText(s.orders[id].buyerEmail, user.email) && s.orders[id].status == PendingBuyer
      then s.(orders := s.orders[id := s.orders[id].(
                buyer := Some(user.id), status := AwaitingPayment,
                stamps := s.orders[id].stamps.(buyerConfirmed := Some(s.now)))])
      else s
  {
    if id in s.orders {
      SameTextIsSameEmail(s.orders[id].buyerEmail, user.email);
    }
  }

  lemma ConfirmAnswer(s: Store, id: OrderId, user: User)
    ensures match Orders.ConfirmVerdict(s, id, user)
      case ConfirmNoOrder => id !in s.orders || !SameText(s.orders[id].buyerEmail, user.email)
      case ConfirmWrongStatus(status) =>
        && id in s.orders && SameText(s.orders[id].buyerEmail, user.email)
        && status == s.orders[id].status && status != PendingBuyer
      case Confirmed =>
        id in s.orders && SameText(s.orders[id].buyerEmail, user.email) && s.orders[id].status == PendingBuyer
  {
    if id in s.orders {
      SameTextIsSameEmail(s.orders[id].buyerEmail, user.email);
    }
  }

  lemma AssignRiderExactly(s: Store, id: OrderId, rider: UserId, riderActive: bool)
    ensures
      Step(s, AssignRider(id, rider, riderActive)) ==
      if id in s.orders && s.orders[id].status == Shipped && riderActive
      then s.(orders := s.orders[id := s.orders[id].(rider := Some(rider))])
      else s
  {
  }
}
