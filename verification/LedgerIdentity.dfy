/** The summary of a ledger in which every order has been settled at most once: money
    held minus money out is exactly what the unsettled holds add up to. */
module LedgerIdentity {
  import opened Types
  import opened Tables
  import Escrow

  predicate Settles(row: LedgerRow) {
    row.kind.FullRelease? || row.kind.Refund?
  }

  predicate Settled(ledger: seq<LedgerRow>, id: OrderId) {
    exists i :: 0 <= i < |Rows(ledger, id)| && Settles(Rows(ledger, id)[i])
  }

  // One order's rows: nothing, a hold, a hold paid out with its fee, or a hold paid back.
  predicate SettledAtMostOnce(rows: seq<LedgerRow>) {
    || rows == []
    || (|rows| == 1 && rows[0].kind.EscrowHold?)
    || (|rows| == 3 && rows[0].kind.EscrowHold? && rows[1].kind.PlatformFee? && rows[2].kind.FullRelease?
        && rows[1].amount + rows[2].amount == rows[0].amount)
    || (|rows| == 2 && rows[0].kind.EscrowHold? && rows[1].kind.Refund? && rows[1].amount == rows[0].amount)
  }

  function Balance(ledger: seq<LedgerRow>): Kobo {
    if ledger == [] then 0
    else
      var last := ledger[|ledger| - 1];
      Balance(ledger[..|ledger| - 1]) + if last.kind.EscrowHold? then last.amount else -last.amount
  }

  // The hold rows of `scan` whose order has no settlement row in `ledger`, added up.
  function OpenHolds(scan: seq<LedgerRow>, ledger: seq<LedgerRow>): Kobo {
    if scan == [] then 0
    else
      var last := scan[|scan| - 1];
      OpenHolds(scan[..|scan| - 1], ledger)
      + if last.kind.EscrowHold? && !Settled(ledger, last.orderId) then last.amount else 0
  }

  function FundedOrders(ledger: seq<LedgerRow>): set<OrderId> {
    set i | 0 <= i < |ledger| && ledger[i].kind.EscrowHold? :: ledger[i].orderId
  }

  // Everything but one order's rows.
  function Others(ledger: seq<LedgerRow>, id: OrderId): (others: seq<LedgerRow>)
    ensures forall i :: 0 <= i < |others| ==> others[i].orderId != id
  {
    if ledger == [] then []
    else
      var last := ledger[|ledger| - 1];
      var before := Others(ledger[..|ledger| - 1], id);
      if last.orderId == id then before else before + [last]
  }

  lemma {:induction false} BalanceIsSummary(ledger: seq<LedgerRow>)
    ensures
      var m := Escrow.Summarise(ledger);
      Balance(ledger) == m.held - m.released - m.refunded - m.platformFees
  {
    if ledger != [] {
      BalanceIsSummary(ledger[..|ledger| - 1]);
    }
  }

  // Taking one order out of the ledger splits every total.
  lemma {:induction false} Split(scan: seq<LedgerRow>, ledger: seq<LedgerRow>, id: OrderId)
    ensures Balance(scan) == Balance(Rows(scan, id)) + Balance(Others(scan, id))
    ensures OpenHolds(scan, ledger) == OpenHolds(Rows(scan, id), ledger) + OpenHolds(Others(scan, id), ledger)
    ensures Escrow.CountOf(scan, EscrowHold) ==
            Escrow.CountOf(Rows(scan, id), EscrowHold) + Escrow.CountOf(Others(scan, id), EscrowHold)
    ensures |scan| == |Rows(scan, id)| + |Others(scan, id)|
  {
    if scan != [] {
      var last := scan[|scan| - 1];
      var before := scan[..|scan| - 1];
      Split(before, ledger, id);
      assert (Rows(before, id) + [last])[..|Rows(before, id)|] == Rows(before, id);
      assert (Others(before, id) + [last])[..|Others(before, id)|] == Others(before, id);
    }
  }

  lemma {:induction false} RowsOfOthers(ledger: seq<LedgerRow>, id: OrderId, other: OrderId)
    ensures Rows(Others(ledger, id), other) == if other == id then [] else Rows(ledger, other)
  {
    if ledger != [] {
      var before := ledger[..|ledger| - 1];
      RowsOfOthers(before, id, other);
      RowsSnoc(Others(before, id), ledger[|ledger| - 1], other);
    }
  }

  lemma {:induction false} OpenHoldsFrame(scan: seq<LedgerRow>, ledger: seq<LedgerRow>, id: OrderId)
    requires forall i :: 0 <= i < |scan| ==> scan[i].orderId != id
    ensures OpenHolds(scan, ledger) == OpenHolds(scan, Others(ledger, id))
  {
    if scan != [] {
      OpenHoldsFrame(scan[..|scan| - 1], ledger, id);
      RowsOfOthers(ledger, id, scan[|scan| - 1].orderId);
    }
  }

  lemma {:induction false} RowsAreOwn(ledger: seq<LedgerRow>, id: OrderId)
    ensures forall i :: 0 <= i < |Rows(ledger, id)| ==> Rows(ledger, id)[i].orderId == id
    ensures forall i :: 0 <= i < |ledger| && ledger[i].orderId == id ==> ledger[i] in Rows(ledger, id)
    ensures forall i :: 0 <= i < |ledger| && ledger[i].orderId != id ==> ledger[i] in Others(ledger, id)
    ensures forall r :: r in Rows(ledger, id) || r in Others(ledger, id) ==> r in ledger
  {
    if ledger != [] {
      RowsAreOwn(ledger[..|ledger| - 1], id);
    }
  }

  lemma TwoRows(first: LedgerRow, second: LedgerRow)
    requires first.kind.EscrowHold? && !second.kind.EscrowHold?
    ensures Balance([first, second]) == first.amount - second.amount
    ensures Escrow.CountOf([first, second], EscrowHold) == 1
    ensures forall ledger :: Settled(ledger, first.orderId) ==> OpenHolds([first, second], ledger) == 0
  {
    var one := [first];
    var two := [first, second];
    assert one[..|one| - 1] == [] && two[..|two| - 1] == one;
    assert Balance(one) == first.amount;
    assert Escrow.CountOf(one[..|one| - 1], EscrowHold) == 0;
    assert Escrow.CountOf(one, EscrowHold) == 1;
    forall ledger | Settled(ledger, first.orderId)
      ensures OpenHolds(two, ledger) == 0
    {
      assert OpenHolds(one, ledger) == 0;
    }
  }

  lemma OwnRowsBalance(ledger: seq<LedgerRow>, id: OrderId)
    requires SettledAtMostOnce(Rows(ledger, id))
    ensures Balance(Rows(ledger, id)) == OpenHolds(Rows(ledger, id), ledger)
    ensures Escrow.CountOf(Rows(ledger, id), EscrowHold) == if Rows(ledger, id) == [] then 0 else 1
  {
    var rows := Rows(ledger, id);
    RowsAreOwn(ledger, id);
    if |rows| == 1 {
      assert rows[..0] == [];
    } else if |rows| == 2 {
      assert Settles(rows[1]) && rows == [rows[0], rows[1]];
      TwoRows(rows[0], rows[1]);
    } else if |rows| == 3 {
      assert Settles(rows[2]) && rows[..2] == [rows[0], rows[1]];
      TwoRows(rows[0], rows[1]);
    }
  }

  lemma FundedSplit(ledger: seq<LedgerRow>, id: OrderId)
    requires SettledAtMostOnce(Rows(ledger, id)) && Rows(ledger, id) != []
    ensures FundedOrders(ledger) == FundedOrders(Others(ledger, id)) + {id}
    ensures id !in FundedOrders(Others(ledger, id))
  {
    RowsAreOwn(ledger, id);
    var first := Rows(ledger, id)[0];
    assert first in ledger;
    forall x | x in FundedOrders(ledger) && x != id
      ensures x in FundedOrders(Others(ledger, id))
    {
      var i :| 0 <= i < |ledger| && ledger[i].kind.EscrowHold? && ledger[i].orderId == x;
      assert ledger[i] in Others(ledger, id);
    }
    forall x | x in FundedOrders(Others(ledger, id))
      ensures x in FundedOrders(ledger)
    {
      var i :| 0 <= i < |Others(ledger, id)| && Others(ledger, id)[i].kind.EscrowHold?
               && Others(ledger, id)[i].orderId == x;
      assert Others(ledger, id)[i] in ledger;
    }
  }

  /** The identity, for any ledger and any number of orders, by taking out one order at a time. */
  lemma {:induction false} SummaryIdentity(ledger: seq<LedgerRow>)
    requires forall id :: SettledAtMostOnce(Rows(ledger, id))
    ensures
      var m := Escrow.Summarise(ledger);
      && m.held - m.released - m.refunded - m.platformFees == OpenHolds(ledger, ledger)
      && m.totalOrders == |FundedOrders(ledger)|
    decreases |ledger|
  {
    BalanceIsSummary(ledger);
    if ledger != [] {
      var id := ledger[|ledger| - 1].orderId;
      var others := Others(ledger, id);
      RowsAreOwn(ledger, id);
      Split(ledger, ledger, id);
      OpenHoldsFrame(others, ledger, id);
      OwnRowsBalance(ledger, id);
      FundedSplit(ledger, id);
      forall other
        ensures SettledAtMostOnce(Rows(others, other))
      {
        RowsOfOthers(ledger, id, other);
      }
      SummaryIdentity(others);
      BalanceIsSummary(others);
    }
  }
}
