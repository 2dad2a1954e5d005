/** The database: all tables as one value (`Store`), and as the object the services share. */
module Tables {
  import opened Types

  datatype Store = Store(
    now: Time,
    orders: map<OrderId, Order>,
    ledger: seq<LedgerRow>,
    audit: seq<AuditRow>,
    payments: map<PaymentRef, Payment>,
    transfers: seq<Transfer>,
    disputes: map<OrderId, Dispute>,
    disputeEvents: seq<DisputeEvent>,
    resolving: set<Ticket>,     // resolve calls that have read but not yet committed
    jobs: set<OrderId>)         // pending auto-release jobs, one per order id

  const EMPTY := Store(0, map[], [], [], map[], [], map[], [], {}, {})

  // The rows of one order, oldest first.
  function Rows(ledger: seq<LedgerRow>, id: OrderId): seq<LedgerRow> {
    if ledger == [] then []
    else
      var last := ledger[|ledger| - 1];
      var before := Rows(ledger[..|ledger| - 1], id);
      if last.orderId == id then before + [last] else before
  }

  lemma RowsSnoc(ledger: seq<LedgerRow>, row: LedgerRow, id: OrderId)
    ensures Rows(ledger + [row], id) == if row.orderId == id then Rows(ledger, id) + [row] else Rows(ledger, id)
  {
    assert (ledger + [row])[..|ledger|] == ledger;
  }

  function FirstHold(rows: seq<LedgerRow>): Option<LedgerRow> {
    if rows == [] then None
    else if rows[0].kind.EscrowHold? then Some(rows[0])
    else FirstHold(rows[1..])
  }

  // findFirst({ orderId, type: ESCROW_HOLD, paymentStatus: SUCCESS })
  function FindHold(ledger: seq<LedgerRow>, id: OrderId): Option<LedgerRow> {
    FirstHold(Rows(ledger, id))
  }

  // The unique index on escrow_transactions.reference.
  predicate RefTaken(ledger: seq<LedgerRow>, reference: LedgerRef) {
    exists i :: 0 <= i < |ledger| && ledger[i].reference == reference
  }

  // What no command but order creation and the clock changes.
  predicate SameFrame(s: Store, t: Store) {
    && t.now == s.now
    && t.orders.Keys == s.orders.Keys
    && t.disputes.Keys <= s.disputes.Keys + s.orders.Keys
    && t.jobs <= s.jobs + s.orders.Keys
  }

  class Database {
    var now: Time
    var orders: map<OrderId, Order>
    var ledger: seq<LedgerRow>
    var audit: seq<AuditRow>
    var payments: map<PaymentRef, Payment>
    var transfers: seq<Transfer>
    var disputes: map<OrderId, Dispute>
    var disputeEvents: seq<DisputeEvent>
    var resolving: set<Ticket>
    var jobs: set<OrderId>

    constructor ()
      ensures State() == EMPTY
    {
      now := 0;
      orders, ledger, audit := map[], [], [];
      payments, transfers := map[], [];
      disputes, disputeEvents, resolving := map[], [], {};
      jobs := {};
    }

    function State(): Store
      reads this
    {
      Store(now, orders, ledger, audit, payments, transfers, disputes, disputeEvents, resolving, jobs)
    }
  }
}
