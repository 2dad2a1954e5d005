/** Which held funds can still be paid out or back. */
module Progress {
  import opened Types
  import opened Tables
  import opened OrderStateMachine
  import opened Protocol
  import opened OrderCases
  import opened Invariant
  import opened Safety
  import opened LedgerIdentity
  import Lifecycle
  import Escrow
  import Orders

  predicate Live(status: OrderStatus) {
    status in {Paid, Shipped, InTransit, Delivered, OrderStatus.Disputed}
  }

  // The rest of the journey, driven by an administrator.
  function SettlingRun(status: OrderStatus, id: OrderId, admin: User): (run: seq<Command>)
    ensures |run| <= 4
    ensures Live(status) ==> |run| == if status == OrderStatus.Disputed then 1 else 7 - Rank(status)
    decreases 8 - Rank(status)
  {
    match status
    case Paid => [UpdateStatus(id, Shipped, admin)] + SettlingRun(Shipped, id, admin)
    case Shipped => [UpdateStatus(id, InTransit, admin)] + SettlingRun(InTransit, id, admin)
    case InTransit => [UpdateStatus(id, Delivered, admin)] + SettlingRun(Delivered, id, admin)
    case Delivered => [UpdateStatus(id, Completed, admin)]
    case Disputed => [RefundFunds(id)]
    case _ => []
  }

  lemma HeldLiveEscrow(s: Store, id: OrderId)
    requires CasesInv(s) && id in s.orders && Held(s.orders[id], Rows(s.ledger, id))
    ensures s.orders[id].status in {Paid, Shipped, InTransit, Delivered} ==> s.orders[id].escrow == Holding
    ensures s.orders[id].status == OrderStatus.Disputed ==>
      s.orders[id].escrow in {Holding, EscrowStatus.Disputed}
    ensures Live(s.orders[id].status) || s.orders[id].status in {Completed, OrderStatus.Refunded}
  {
    assert CaseInv(CaseOf(s, id), s.now);
  }

  lemma AdminCompletes(s: Store, id: OrderId, admin: User)
    requires CasesInv(s) && id in s.orders && Held(s.orders[id], Rows(s.ledger, id)) && admin.isAdmin
    requires s.orders[id].status == Delivered
    ensures Balance(Rows(Orders.AfterUpdate(s, id, Completed, admin).ledger, id)) == 0
  {
    HeldLiveEscrow(s, id);
    assert Orders.UpdateVerdict(s, id, Completed, admin).ThroughEscrow?;
    var order, hold := s.orders[id], Rows(s.ledger, id)[0];
    var fee, paid := Escrow.FeeRow(order, hold, id, s.now), Escrow.ReleaseRow(order, id, s.now);
    RowsSnoc(s.ledger, fee, id);
    RowsSnoc(s.ledger + [fee], paid, id);
    var t := Orders.AfterUpdate(s, id, Completed, admin);
    assert t.ledger == s.ledger + [fee] + [paid];
    assert Rows(t.ledger, id) == [hold, fee] + [paid];
    TwoRows(hold, fee);
    assert ([hold, fee] + [paid])[..2] == [hold, fee];
  }

  lemma AdminRefunds(s: Store, id: OrderId)
    requires CasesInv(s) && id in s.orders && Held(s.orders[id], Rows(s.ledger, id))
    requires s.orders[id].status == OrderStatus.Disputed
    ensures Balance(Rows(Escrow.AfterRefund(s, id).ledger, id)) == 0
  {
    HeldLiveEscrow(s, id);
    var hold := Rows(s.ledger, id)[0];
    RowsSnoc(s.ledger, Escrow.RefundRow(hold, id, s.now), id);
    TwoRows(hold, Escrow.RefundRow(hold, id, s.now));
    assert Rows(Escrow.AfterRefund(s, id).ledger, id) == [hold, Escrow.RefundRow(hold, id, s.now)];
  }

  predicate ClearsBalance(s: Store, run: seq<Command>, id: OrderId) {
    OrderlyRun(s, run) && Balance(Rows(Run(s, run).ledger, id)) == 0
  }

  lemma LastSettles(s: Store, t: Store, c: Command, id: OrderId)
    requires Orderly(s, c) && Step(s, c) == t && Balance(Rows(t.ledger, id)) == 0
    ensures ClearsBalance(s, [c], id)
  {
  }

  lemma OneMoreSettles(s: Store, t: Store, c: Command, rest: seq<Command>, id: OrderId)
    requires Orderly(s, c) && Step(s, c) == t && ClearsBalance(t, rest, id)
    ensures ClearsBalance(s, [c] + rest, id)
  {
    assert ([c] + rest)[1..] == rest;
  }

  // The states the settling runs pass through.
  ghost predicate OnTheWay(s: Store, id: OrderId, status: OrderStatus) {
    Inv(s) && id in s.orders && Held(s.orders[id], Rows(s.ledger, id)) && s.orders[id].status == status
  }

  lemma AdminMoveStays(s: Store, id: OrderId, status: OrderStatus, next: OrderStatus, admin: User)
    requires OnTheWay(s, id, status) && admin.isAdmin
    requires (status, next) in {(Paid, Shipped), (Shipped, InTransit), (InTransit, Delivered)}
    ensures OnTheWay(Orders.AfterUpdate(s, id, next, admin), id, next)
  {
    AdminMoves(s, id, next, admin);
    UpdateStep(s, id, next, admin);
    OrderlyKeepsInv(s, UpdateStatus(id, next, admin));
  }

  lemma FromDelivered(s: Store, id: OrderId, admin: User)
    requires OnTheWay(s, id, Delivered) && admin.isAdmin
    ensures ClearsBalance(s, [UpdateStatus(id, Completed, admin)], id)
  {
    AdminCompletes(s, id, admin);
    UpdateStep(s, id, Completed, admin);
    LastSettles(s, Orders.AfterUpdate(s, id, Completed, admin), UpdateStatus(id, Completed, admin), id);
  }

  lemma FromInTransit(s: Store, id: OrderId, admin: User)
    requires OnTheWay(s, id, InTransit) && admin.isAdmin
    ensures ClearsBalance(s, SettlingRun(InTransit, id, admin), id)
  {
    var t := Orders.AfterUpdate(s, id, Delivered, admin);
    AdminMoveStays(s, id, InTransit, Delivered, admin);
    FromDelivered(t, id, admin);
    UpdateStep(s, id, Delivered, admin);
    OneMoreSettles(s, t, UpdateStatus(id, Delivered, admin), [UpdateStatus(id, Completed, admin)], id);
  }

  lemma FromShipped(s: Store, id: OrderId, admin: User)
    requires OnTheWay(s, id, Shipped) && admin.isAdmin
    ensures ClearsBalance(s, SettlingRun(Shipped, id, admin), id)
  {
    var t := Orders.AfterUpdate(s, id, InTransit, admin);
    AdminMoveStays(s, id, Shipped, InTransit, admin);
    FromInTransit(t, id, admin);
    UpdateStep(s, id, InTransit, admin);
    OneMoreSettles(s, t, UpdateStatus(id, InTransit, admin), SettlingRun(InTransit, id, admin), id);
  }

  lemma FromPaid(s: Store, id: OrderId, admin: User)
    requires OnTheWay(s, id, Paid) && admin.isAdmin
    ensures ClearsBalance(s, SettlingRun(Paid, id, admin), id)
  {
    var t := Orders.AfterUpdate(s, id, Shipped, admin);
    AdminMoveStays(s, id, Paid, Shipped, admin);
    FromShipped(t, id, admin);
    UpdateStep(s, id, Shipped, admin);
    OneMoreSettles(s, t, UpdateStatus(id, Shipped, admin), SettlingRun(Shipped, id, admin), id);
  }

  lemma FromDisputed(s: Store, id: OrderId)
    requires OnTheWay(s, id, OrderStatus.Disputed)
    ensures ClearsBalance(s, [RefundFunds(id)], id)
  {
    AdminRefunds(s, id);
    RefundStep(s, id);
    LastSettles(s, Escrow.AfterRefund(s, id), RefundFunds(id), id);
  }

  lemma SettlingRunSettles(s: Store, id: OrderId, admin: User)
    requires id in s.orders && OnTheWay(s, id, s.orders[id].status) && Live(s.orders[id].status) && admin.isAdmin
    ensures ClearsBalance(s, SettlingRun(s.orders[id].status, id, admin), id)
  {
    match s.orders[id].status
    case Paid => FromPaid(s, id, admin);
    case Shipped => FromShipped(s, id, admin);
    case InTransit => FromInTransit(s, id, admin);
    case Delivered => FromDelivered(s, id, admin);
    case Disputed => FromDisputed(s, id);
  }

  lemma HoldIsPositive(order: Order, rows: seq<LedgerRow>)
    requires Held(order, rows)
    ensures Balance(rows) > 0
  {
  }

  lemma StuckForGood(s: Store, run: seq<Command>, id: OrderId)
    requires id in s.orders && OnTheWay(s, id, s.orders[id].status) && !Live(s.orders[id].status)
    ensures !ClearsBalance(s, run, id)
  {
    if OrderlyRun(s, run) {
      HeldLiveEscrow(s, id);
      Lifecycle.TerminalAbsorbs(s, run, id);
      HoldIsPositive(s.orders[id], Rows(s.ledger, id));
    }
  }

  /** Held funds are never stuck while the order is live: from any reachable state at
      most four orderly commands bring the order's balance to zero. They are stuck for
      good in every other status: an exit that only changed the status has left the hold
      unsettled, and no orderly continuation settles it. */
  lemma SettleableIffLive(s: Store, id: OrderId)
    requires Reachable(s) && id in s.orders && Held(s.orders[id], Rows(s.ledger, id))
    ensures Live(s.orders[id].status) <==>
      exists run :: ClearsBalance(s, run, id)
    ensures Live(s.orders[id].status) ==>
      exists run :: |run| <= 4 && ClearsBalance(s, run, id)
  {
    ReachableInv(s);
    HeldLiveEscrow(s, id);
    if Live(s.orders[id].status) {
      var admin := User("admin", "", true);
      SettlingRunSettles(s, id, admin);
      assert |SettlingRun(s.orders[id].status, id, admin)| <= 4;
    } else {
      forall run
        ensures !ClearsBalance(s, run, id)
      {
        StuckForGood(s, run, id);
      }
    }
  }
}
