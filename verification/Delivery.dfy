/** Webhook deliveries that come twice, out of order, or beside a poll. */
module Delivery {
  import opened Types
  import opened Tables
  import opened OrderStateMachine
  import opened Protocol
  import opened OrderCases
  import opened Metadata
  import opened Webhook
  import opened PaymentRecords
  import Escrow

  // ------------------------------------------------------ at-least-once delivery

  lemma ChargeOnFunded(s: Store, c: Command, id: OrderId)
    requires c.ChargeSuccess? && FindHold(s.ledger, id).Some? && ExtractedOrderId(c.metadata) == Some(id)
    ensures Step(s, c) == s.(payments := Step(s, c).payments)
  {
  }

  /** Once an order has a hold, any number of further charge.success deliveries for it, of
      the same or other payments and at whatever status, change nothing but payment records. */
  lemma {:induction false} FundedOnceForAll(s: Store, deliveries: seq<Command>, id: OrderId)
    requires FindHold(s.ledger, id).Some?
    requires forall i :: 0 <= i < |deliveries| ==>
      deliveries[i].ChargeSuccess? && ExtractedOrderId(deliveries[i].metadata) == Some(id)
    ensures Run(s, deliveries) == s.(payments := Run(s, deliveries).payments)
    decreases deliveries
  {
    if deliveries != [] {
      ChargeOnFunded(s, deliveries[0], id);
      FundedOnceForAll(Step(s, deliveries[0]), deliveries[1..], id);
    }
  }

  /** A delivery whose reference is already recorded for another order changes nothing at all. */
  lemma ForeignReferenceChangesNothing(s: Store, c: Command)
    requires c.ChargeSuccess? && c.reference in s.payments
    requires ExtractedOrderId(c.metadata) != Some(s.payments[c.reference].orderId)
    ensures Step(s, c) == s
  {
  }

  // ---------------------------------------------------- settling a payment record

  /** Whatever happens, in any run, orderly or not: a reference stays with its order, and
      a recorded success is never undone. */
  lemma {:induction false} RecordIsSettled(s: Store, run: seq<Command>, reference: PaymentRef)
    requires reference in s.payments
    ensures
      var after := RecordOf(Run(s, run), reference);
      && after.Some? && after.value.orderId == s.payments[reference].orderId
      && (s.payments[reference].state.PaymentSuccess? ==> after.value.state.PaymentSuccess?)
    decreases run
  {
    if run != [] {
      RecordsMove(s, run[0], reference);
      RecordIsSettled(Step(s, run[0]), run[1..], reference);
    }
  }

  // charge.failed, or a charge.success that passes every check on its own, for `reference`.
  predicate ChargeEvent(c: Command, reference: PaymentRef, id: OrderId) {
    || c == ChargeFailed(reference)
    || (c.ChargeSuccess? && c.reference == reference
        && ExtractedOrderId(c.metadata) == Some(id) && ExtractedOrderId(c.v.metadata) == Some(id)
        && c.v.status == "success" && c.v.reference == reference && c.v.amount > 0
        && c.v.currency == "NGN" && c.v.WebhookTime().Some?)
  }

  // The tables accept a success of `reference` for order `id`.
  predicate Accepts(s: Store, reference: PaymentRef, id: OrderId) {
    && id in s.orders && s.orders[id].total > 0
    && (reference in s.payments ==> s.payments[reference].orderId == id)
    && (RefTaken(s.ledger, EscrowFor(reference)) ==> FindHold(s.ledger, id).Some?)
  }

  lemma {:induction false} FirstHoldSnoc(rows: seq<LedgerRow>, row: LedgerRow)
    requires row.kind.EscrowHold?
    ensures FirstHold(rows + [row]).Some?
  {
    if rows != [] && !rows[0].kind.EscrowHold? {
      FirstHoldSnoc(rows[1..], row);
      assert (rows + [row])[1..] == rows[1..] + [row];
    }
  }

  lemma AcceptedSuccess(s: Store, c: Command, reference: PaymentRef, id: OrderId)
    requires Accepts(s, reference, id) && c.ChargeSuccess? && ChargeEvent(c, reference, id)
    ensures Accepts(Step(s, c), reference, id)
    ensures RecordOf(Step(s, c), reference) == Some(SuccessRecord(id, c.v))
  {
    var t := Step(s, c);
    if ChargeVerdict(s, c.reference, c.metadata, c.v, c.oneKoboOver).Funded? {
      var row := Escrow.HoldRow(id, c.v.amount, EscrowFor(reference), Some(reference));
      RowsSnoc(s.ledger, row, id);
      FirstHoldSnoc(Rows(s.ledger, id), row);
      assert t.ledger == s.ledger + [row];
    }
  }

  predicate HasChargeSuccess(run: seq<Command>) {
    exists i :: 0 <= i < |run| && run[i].ChargeSuccess?
  }

  function StateOf(s: Store, reference: PaymentRef): Option<PaymentState> {
    if reference in s.payments then Some(s.payments[reference].state) else None
  }

  // The record that the last accepted success of the run leaves.
  function LastSuccess(run: seq<Command>, id: OrderId): (r: Option<Payment>)
    ensures r.Some? <==> HasChargeSuccess(run)
    ensures r.Some? ==> exists i ::
      0 <= i < |run| && run[i].ChargeSuccess? && r.value == SuccessRecord(id, run[i].v)
  {
    if run == [] then None
    else
      var later := LastSuccess(run[1..], id);
      TailHasSuccess(run);
      assert forall i :: 1 <= i < |run| ==> run[i] == run[1..][i - 1];
      if later.Some? then
        assert exists i :: 0 <= i < |run| && run[i].ChargeSuccess? && later.value == SuccessRecord(id, run[i].v) by {
          var i :| 0 <= i < |run| - 1 && run[1..][i].ChargeSuccess? && later.value == SuccessRecord(id, run[1..][i].v);
          assert run[i + 1] == run[1..][i];
        }
        later
      else if run[0].ChargeSuccess? then Some(SuccessRecord(id, run[0].v))
      else None
  }

  // Where a record ends up, given where it was, whether anything arrived, and the last success.
  function SettledRecord(before: Option<Payment>, arrived: bool, last: Option<Payment>): Option<Payment> {
    if last.Some? then last
    else if arrived && before.Some? && !before.value.state.PaymentSuccess?
    then Some(before.value.(state := PaymentFailed))
    else before
  }

  lemma TailHasSuccess(run: seq<Command>)
    requires run != []
    ensures HasChargeSuccess(run) <==> run[0].ChargeSuccess? || HasChargeSuccess(run[1..])
  {
  }

  lemma {:induction false} EventsSettle(s: Store, run: seq<Command>, reference: PaymentRef, id: OrderId)
    requires Accepts(s, reference, id)
    requires forall i :: 0 <= i < |run| ==> ChargeEvent(run[i], reference, id)
    ensures RecordOf(Run(s, run), reference) == SettledRecord(RecordOf(s, reference), run != [], LastSuccess(run, id))
    decreases run
  {
    if run != [] {
      assert ChargeEvent(run[0], reference, id);
      var t := Step(s, run[0]);
      if run[0].ChargeSuccess? {
        AcceptedSuccess(s, run[0], reference, id);
      } else {
        FailureSettles(s, reference, id);
      }
      EventsSettle(t, run[1..], reference, id);
    }
  }

  lemma FailureSettles(s: Store, reference: PaymentRef, id: OrderId)
    requires Accepts(s, reference, id)
    ensures Accepts(Step(s, ChargeFailed(reference)), reference, id)
    ensures RecordOf(Step(s, ChargeFailed(reference)), reference) == SettledRecord(RecordOf(s, reference), true, None)
  {
  }

  // Every success of the run carries the same answer of Paystack.
  predicate OneAnswer(run: seq<Command>) {
    forall i, j :: 0 <= i < |run| && 0 <= j < |run| && run[i].ChargeSuccess? && run[j].ChargeSuccess? ==>
      run[i].v == run[j].v
  }

  lemma SameLastSuccess(first: seq<Command>, second: seq<Command>, id: OrderId)
    requires multiset(first) == multiset(second) && OneAnswer(first)
    ensures LastSuccess(first, id) == LastSuccess(second, id)
  {
    SameEvents(first, second);
    SameEvents(second, first);
    if HasChargeSuccess(first) {
      var i :| 0 <= i < |first| && first[i].ChargeSuccess?
               && LastSuccess(first, id).value == SuccessRecord(id, first[i].v);
      var j :| 0 <= j < |second| && second[j].ChargeSuccess?
               && LastSuccess(second, id).value == SuccessRecord(id, second[j].v);
      assert second[j] in multiset(first);
    }
  }

  lemma SameEvents(first: seq<Command>, second: seq<Command>)
    requires multiset(first) == multiset(second)
    ensures HasChargeSuccess(first) ==> HasChargeSuccess(second)
    ensures first == [] ==> second == []
  {
    if HasChargeSuccess(first) {
      var i :| 0 <= i < |first| && first[i].ChargeSuccess?;
      assert first[i] in multiset(second);
    }
    assert |multiset(first)| == |first| && |multiset(second)| == |second|;
  }

  /** Failures and accepted successes of one payment may arrive in any order: every
      permutation leaves the record in the same state, SUCCESS if there was any success, with
      the amount and time of the last one; so the whole record is the same as long as
      Paystack's answers agree. */
  lemma DeliveryOrderDoesNotMatter(s: Store, first: seq<Command>, second: seq<Command>,
                                   reference: PaymentRef, id: OrderId)
    requires Accepts(s, reference, id) && multiset(first) == multiset(second)
    requires forall i :: 0 <= i < |first| ==> ChargeEvent(first[i], reference, id)
    ensures StateOf(Run(s, first), reference) == StateOf(Run(s, second), reference)
    ensures HasChargeSuccess(first) ==> RecordOf(Run(s, first), reference) == LastSuccess(first, id)
    ensures OneAnswer(first) ==> RecordOf(Run(s, first), reference) == RecordOf(Run(s, second), reference)
  {
    forall i | 0 <= i < |second|
      ensures ChargeEvent(second[i], reference, id)
    {
      assert second[i] in multiset(first);
    }
    SameEvents(first, second);
    SameEvents(second, first);
    EventsSettle(s, first, reference, id);
    EventsSettle(s, second, reference, id);
    if OneAnswer(first) {
      SameLastSuccess(first, second, id);
    }
  }
}
