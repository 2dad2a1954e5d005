/** The transition table of order-state-machine.ts and its lookups. */
module OrderStateMachine {
  import opened Types

  datatype Role = Admin | Seller | Buyer | Rider | NoRole

  datatype Action =
    | SendToBuyer | Cancel | ConfirmOrder | PaymentConfirmed | Ship | Pickup | Deliver
    | ConfirmSatisfaction | RaiseDispute | ResolveSeller | ResolveBuyer

  datatype Edge = Edge(action: Action, to: OrderStatus, roles: set<Role>)

  function Edges(status: OrderStatus): seq<Edge> {
    match status
    case Draft => [
      Edge(SendToBuyer, PendingBuyer, {Seller, Admin}),
      Edge(Cancel, Cancelled, {Seller, Admin})]
    case PendingBuyer => [
      Edge(ConfirmOrder, AwaitingPayment, {Buyer, Admin}),
      Edge(Cancel, Cancelled, {Seller, Buyer, Admin})]
    case AwaitingPayment => [
      Edge(PaymentConfirmed, Paid, {Admin}),
      Edge(Cancel, Cancelled, {Seller, Buyer, Admin})]
    case Paid => [
      Edge(Ship, Shipped, {Seller, Admin}),
      Edge(Cancel, OrderStatus.Refunded, {Admin})]
    case Shipped => [Edge(Pickup, InTransit, {Rider, Admin})]
    case InTransit => [Edge(Deliver, Delivered, {Rider, Admin})]
    case Delivered => [
      Edge(ConfirmSatisfaction, Completed, {Buyer, Admin}),
      Edge(RaiseDispute, OrderStatus.Disputed, {Buyer, Seller, Admin})]
    case Disputed => [
      Edge(ResolveSeller, Completed, {Admin}),
      Edge(ResolveBuyer, OrderStatus.Refunded, {Admin})]
    case Completed => []
    case Cancelled => []
    case Refunded => []
  }

  // Object.values(transitions).find(item => item.to === next)
  function FindTarget(edges: seq<Edge>, next: OrderStatus): Option<Edge> {
    if edges == [] then None
    else if edges[0].to == next then Some(edges[0])
    else FindTarget(edges[1..], next)
  }

  function FindAction(edges: seq<Edge>, action: Action): Option<Edge> {
    if edges == [] then None
    else if edges[0].action == action then Some(edges[0])
    else FindAction(edges[1..], action)
  }

  datatype TransitionCheck = Allowed | InvalidTransition | ForbiddenRole

  function ValidateTransition(current: OrderStatus, next: OrderStatus, role: Role): TransitionCheck {
    match FindTarget(Edges(current), next)
    case None => InvalidTransition
    case Some(edge) => if role in edge.roles then Allowed else ForbiddenRole
  }

  function TransitionOrderStatus(current: OrderStatus, action: Action): Option<OrderStatus> {
    match FindAction(Edges(current), action)
    case None => None
    case Some(edge) => Some(edge.to)
  }

  // -------------------------------------------------------------- properties

  predicate HasEdge(current: OrderStatus, next: OrderStatus) {
    exists i :: 0 <= i < |Edges(current)| && Edges(current)[i].to == next
  }

  predicate Terminal(status: OrderStatus) {
    status in {Completed, Cancelled, OrderStatus.Refunded}
  }

  // How far an order has come; every edge of the table raises it.
  function Rank(status: OrderStatus): (rank: nat)
    ensures rank <= 8 && (rank == 8 <==> Terminal(status))
  {
    match status
    case Draft => 0
    case PendingBuyer => 1
    case AwaitingPayment => 2
    case Paid => 3
    case Shipped => 4
    case InTransit => 5
    case Delivered => 6
    case Disputed => 7
    case Completed => 8
    case Cancelled => 8
    case Refunded => 8
  }

  lemma {:induction false} FindTargetIffEdge(edges: seq<Edge>, next: OrderStatus)
    ensures FindTarget(edges, next).Some? <==> exists i :: 0 <= i < |edges| && edges[i].to == next
    ensures FindTarget(edges, next).Some? ==>
      FindTarget(edges, next).value in edges && FindTarget(edges, next).value.to == next
  {
    if edges != [] {
      FindTargetIffEdge(edges[1..], next);
      if edges[0].to != next && exists i :: 0 <= i < |edges| && edges[i].to == next {
        var i :| 0 <= i < |edges| && edges[i].to == next;
        assert edges[1..][i - 1].to == next;
      }
    }
  }

  // The table's edges as pairs.
  lemma EdgesAre(current: OrderStatus, next: OrderStatus)
    requires HasEdge(current, next)
    ensures match current
      case Draft => next in {PendingBuyer, Cancelled}
      case PendingBuyer => next in {AwaitingPayment, Cancelled}
      case AwaitingPayment => next in {Paid, Cancelled}
      case Paid => next in {Shipped, OrderStatus.Refunded}
      case Shipped => next == InTransit
      case InTransit => next == Delivered
      case Delivered => next in {Completed, OrderStatus.Disputed}
      case Disputed => next in {Completed, OrderStatus.Refunded}
      case _ => false
  {
  }

  lemma EdgesRaiseRank(current: OrderStatus, next: OrderStatus)
    requires HasEdge(current, next)
    ensures Rank(current) < Rank(next)
  {
    EdgesAre(current, next);
  }

  lemma AllowedFollowsEdge(current: OrderStatus, next: OrderStatus, role: Role)
    requires ValidateTransition(current, next, role).Allowed?
    ensures HasEdge(current, next)
  {
    FindTargetIffEdge(Edges(current), next);
  }

  // No status reaches the same target by two actions.
  lemma SameEdge(current: OrderStatus, next: OrderStatus, action: Action)
    requires TransitionOrderStatus(current, action) == Some(next)
    ensures FindTarget(Edges(current), next) == FindAction(Edges(current), action)
  {
  }

  predicate DistinctActions(edges: seq<Edge>) {
    forall i, j :: 0 <= i < j < |edges| ==> edges[i].action != edges[j].action
  }

  lemma {:induction false} ActionFindsTarget(edges: seq<Edge>, next: OrderStatus)
    requires DistinctActions(edges) && FindTarget(edges, next).Some?
    ensures FindTarget(edges, next).value in edges
    ensures FindAction(edges, FindTarget(edges, next).value.action) == FindTarget(edges, next)
  {
    if edges[0].to != next {
      ActionFindsTarget(edges[1..], next);
      var edge := FindTarget(edges, next).value;
      var i :| 0 <= i < |edges| - 1 && edges[1..][i] == edge;
      assert edges[i + 1] == edge;
    }
  }

  /** The lookup by target (`validateTransition`) and the lookup by action
      (`transitionOrderStatus`) read the same table: a move is valid for a role
      exactly when some action open to that role performs it. */
  lemma ValidateAgreesWithActions(current: OrderStatus, next: OrderStatus, role: Role)
    ensures ValidateTransition(current, next, role).Allowed? <==>
      exists action ::
        && TransitionOrderStatus(current, action) == Some(next)
        && role in FindAction(Edges(current), action).value.roles
  {
    if ValidateTransition(current, next, role).Allowed? {
      ActionFindsTarget(Edges(current), next);
      FindTargetIffEdge(Edges(current), next);
      assert TransitionOrderStatus(current, FindTarget(Edges(current), next).value.action) == Some(next);
    }
    forall action | TransitionOrderStatus(current, action) == Some(next)
      ensures FindTarget(Edges(current), next) == FindAction(Edges(current), action)
    {
      SameEdge(current, next, action);
    }
  }
}
