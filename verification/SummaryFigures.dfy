/** Each figure of the administrator's summary on its own, order by order. */
module SummaryFigures {
  import opened Types
  import opened Tables
  import opened Protocol
  import opened Invariant
  import opened Safety
  import opened EscrowEffects
  import Conservation
  import Escrow
  import LedgerIdentity

  // All orders, each once, in any order.
  ghost predicate Listing(ids: seq<OrderId>, s: Store) {
    && (forall i, j :: 0 <= i < j < |ids| ==> ids[i] != ids[j])
    && (forall id :: id in ids <==> id in s.orders)
  }

  predicate HasRow(s: Store, id: OrderId, kind: LedgerKind) {
    exists i :: 0 <= i < |s.ledger| && s.ledger[i].orderId == id && s.ledger[i].kind == kind
  }

  function HeldFor(s: Store, id: OrderId): Kobo {
    match HoldFrom(s.ledger, id)
    case None => 0
    case Some(hold) => hold.amount
  }

  // What one order should contribute to a figure.
  function Share(s: Store, id: OrderId, kind: LedgerKind): Kobo
    requires id in s.orders
  {
    match kind
    case EscrowHold => HeldFor(s, id)
    case FullRelease => if HasRow(s, id, FullRelease) then s.orders[id].sellerPayout else 0
    case PlatformFee => if HasRow(s, id, FullRelease) then HeldFor(s, id) - s.orders[id].sellerPayout else 0
    case Refund => if HasRow(s, id, LedgerKind.Refund) then HeldFor(s, id) else 0
  }

  function Shares(s: Store, ids: seq<OrderId>, kind: LedgerKind): Kobo
    requires forall id :: id in ids ==> id in s.orders
  {
    if ids == [] then 0 else Shares(s, ids[..|ids| - 1], kind) + Share(s, ids[|ids| - 1], kind)
  }

  // --------------------------------------------------- the ledger, order by order

  function ByOrder(ledger: seq<LedgerRow>, ids: seq<OrderId>, kind: LedgerKind): Kobo {
    if ids == [] then 0
    else ByOrder(ledger, ids[..|ids| - 1], kind) + Escrow.SumOf(Rows(ledger, ids[|ids| - 1]), kind)
  }

  lemma SumSnoc(rows: seq<LedgerRow>, row: LedgerRow, kind: LedgerKind)
    ensures Escrow.SumOf(rows + [row], kind) == Escrow.SumOf(rows, kind) + if row.kind == kind then row.amount else 0
  {
    assert (rows + [row])[..|rows|] == rows;
  }

  lemma {:induction false} ByOrderSnoc(ledger: seq<LedgerRow>, row: LedgerRow, ids: seq<OrderId>, kind: LedgerKind)
    requires forall i, j :: 0 <= i < j < |ids| ==> ids[i] != ids[j]
    ensures ByOrder(ledger + [row], ids, kind) ==
            ByOrder(ledger, ids, kind) + if row.orderId in ids && row.kind == kind then row.amount else 0
  {
    if ids != [] {
      var n := |ids| - 1;
      ByOrderSnoc(ledger, row, ids[..n], kind);
      RowsSnoc(ledger, row, ids[n]);
      SumSnoc(Rows(ledger, ids[n]), row, kind);
      assert ids == ids[..n] + [ids[n]];
    }
  }

  lemma {:induction false} NothingByOrder(ids: seq<OrderId>, kind: LedgerKind)
    ensures ByOrder([], ids, kind) == 0
  {
    if ids != [] {
      NothingByOrder(ids[..|ids| - 1], kind);
    }
  }

  lemma {:induction false} SumIsByOrder(ledger: seq<LedgerRow>, ids: seq<OrderId>, kind: LedgerKind)
    requires forall i, j :: 0 <= i < j < |ids| ==> ids[i] != ids[j]
    requires forall i :: 0 <= i < |ledger| ==> ledger[i].orderId in ids
    ensures Escrow.SumOf(ledger, kind) == ByOrder(ledger, ids, kind)
  {
    if ledger == [] {
      NothingByOrder(ids, kind);
    } else {
      var before, last := ledger[..|ledger| - 1], ledger[|ledger| - 1];
      assert before + [last] == ledger;
      SumIsByOrder(before, ids, kind);
      ByOrderSnoc(before, last, ids, kind);
      SumSnoc(before, last, kind);
    }
  }

  // ---------------------------------------------------------------- one order

  predicate HasKind(rows: seq<LedgerRow>, kind: LedgerKind) {
    exists k :: 0 <= k < |rows| && rows[k].kind == kind
  }

  lemma RowsHaveKind(s: Store, id: OrderId, kind: LedgerKind)
    requires HasRow(s, id, kind)
    ensures HasKind(Rows(s.ledger, id), kind)
  {
    LedgerIdentity.RowsAreOwn(s.ledger, id);
    var i :| 0 <= i < |s.ledger| && s.ledger[i].orderId == id && s.ledger[i].kind == kind;
    assert s.ledger[i] in Rows(s.ledger, id);
    var k :| 0 <= k < |Rows(s.ledger, id)| && Rows(s.ledger, id)[k] == s.ledger[i];
  }

  lemma KindInLedger(s: Store, id: OrderId, kind: LedgerKind)
    requires HasKind(Rows(s.ledger, id), kind)
    ensures HasRow(s, id, kind)
  {
    LedgerIdentity.RowsAreOwn(s.ledger, id);
    var rows := Rows(s.ledger, id);
    var k :| 0 <= k < |rows| && rows[k].kind == kind;
    assert rows[k] in rows && rows[k] in s.ledger && rows[k].orderId == id;
    var i :| 0 <= i < |s.ledger| && s.ledger[i] == rows[k];
    assert s.ledger[i].orderId == id && s.ledger[i].kind == kind;
  }

  lemma RowIffInRows(s: Store, id: OrderId, kind: LedgerKind)
    ensures HasRow(s, id, kind) <==> HasKind(Rows(s.ledger, id), kind)
  {
    if HasRow(s, id, kind) {
      RowsHaveKind(s, id, kind);
    }
    if HasKind(Rows(s.ledger, id), kind) {
      KindInLedger(s, id, kind);
    }
  }

  lemma HeldIsFirstRow(s: Store, id: OrderId)
    requires LedgerIdentity.SettledAtMostOnce(Rows(s.ledger, id))
    ensures HeldFor(s, id) == if Rows(s.ledger, id) == [] then 0 else Rows(s.ledger, id)[0].amount
  {
    HoldIsFirst(s.ledger, id);
  }

  // The payout row of an order that has one is for its sellerPayout.
  lemma PayoutRow(c: Case, now: Time)
    requires CaseInv(c, now) && |c.rows| == 3
    ensures c.rows[2].amount == c.order.sellerPayout
  {
  }

  lemma KindsOfRows(rows: seq<LedgerRow>)
    requires LedgerIdentity.SettledAtMostOnce(rows)
    ensures HasKind(rows, FullRelease) <==> |rows| == 3
    ensures HasKind(rows, LedgerKind.Refund) <==> |rows| == 2
  {
    if |rows| == 3 {
      assert rows[2].kind == FullRelease;
    } else if |rows| == 2 {
      assert rows[1].kind == LedgerKind.Refund;
    }
  }

  // What is known of an order's rows, in terms of the tables.
  lemma OrderFacts(s: Store, id: OrderId)
    requires Inv(s) && id in s.orders
    ensures LedgerIdentity.SettledAtMostOnce(Rows(s.ledger, id))
    ensures HasRow(s, id, FullRelease) <==> |Rows(s.ledger, id)| == 3
    ensures HasRow(s, id, LedgerKind.Refund) <==> |Rows(s.ledger, id)| == 2
    ensures HeldFor(s, id) == if Rows(s.ledger, id) == [] then 0 else Rows(s.ledger, id)[0].amount
    ensures |Rows(s.ledger, id)| == 3 ==> Rows(s.ledger, id)[2].amount == s.orders[id].sellerPayout
  {
    Conservation.OrdersSettledAtMostOnce(s, id);
    KindsOfRows(Rows(s.ledger, id));
    RowIffInRows(s, id, FullRelease);
    RowIffInRows(s, id, LedgerKind.Refund);
    HeldIsFirstRow(s, id);
    assert CaseInv(CaseOf(s, id), s.now);
    if |Rows(s.ledger, id)| == 3 {
      PayoutRow(CaseOf(s, id), s.now);
    }
  }

  lemma ShareIsSum(s: Store, id: OrderId, kind: LedgerKind)
    requires Inv(s) && id in s.orders
    ensures Share(s, id, kind) == Escrow.SumOf(Rows(s.ledger, id), kind)
  {
    OrderFacts(s, id);
    Conservation.RowsSettledOnce(Rows(s.ledger, id));
  }

  lemma {:induction false} SharesAreByOrder(s: Store, ids: seq<OrderId>, kind: LedgerKind)
    requires Inv(s) && forall id :: id in ids ==> id in s.orders
    ensures Shares(s, ids, kind) == ByOrder(s.ledger, ids, kind)
  {
    if ids != [] {
      SharesAreByOrder(s, ids[..|ids| - 1], kind);
      ShareIsSum(s, ids[|ids| - 1], kind);
    }
  }

  lemma FigureIsShares(s: Store, ids: seq<OrderId>, kind: LedgerKind)
    requires Inv(s) && Listing(ids, s)
    ensures Escrow.SumOf(s.ledger, kind) == Shares(s, ids, kind)
  {
    SumIsByOrder(s.ledger, ids, kind);
    SharesAreByOrder(s, ids, kind);
  }

  /** In every reachable state, over all orders: held is what the holds add up to, released
      the sellers' payouts of the released orders, platform fees what their holds exceed
      those by, and refunded the holds of the refunded orders. */
  lemma EachFigure(s: Store, ids: seq<OrderId>)
    requires Reachable(s) && Listing(ids, s)
    ensures
      var m := Escrow.Summarise(s.ledger);
      && m.held == Shares(s, ids, EscrowHold) && m.released == Shares(s, ids, FullRelease)
      && m.platformFees == Shares(s, ids, PlatformFee) && m.refunded == Shares(s, ids, LedgerKind.Refund)
  {
    ReachableInv(s);
    FigureIsShares(s, ids, EscrowHold);
    FigureIsShares(s, ids, FullRelease);
    FigureIsShares(s, ids, PlatformFee);
    FigureIsShares(s, ids, LedgerKind.Refund);
  }

  lemma {:induction false} SetIsListed(keys: set<OrderId>) returns (ids: seq<OrderId>)
    ensures forall i, j :: 0 <= i < j < |ids| ==> ids[i] != ids[j]
    ensures forall id :: id in ids <==> id in keys
    decreases |keys|
  {
    if keys == {} {
      ids := [];
    } else {
      var last :| last in keys;
      var before := SetIsListed(keys - {last});
      ids := before + [last];
    }
  }

  // Every set of orders has such a listing.
  lemma ListingExists(s: Store)
    ensures exists ids :: Listing(ids, s)
  {
    var ids := SetIsListed(s.orders.Keys);
    assert Listing(ids, s);
  }
}
