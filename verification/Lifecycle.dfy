/** The order's status as a terminating machine, and its timestamps. */
module Lifecycle {
  import opened Types
  import opened Tables
  import opened OrderStateMachine
  import opened Protocol
  import opened OrderCases
  import opened Invariant
  import opened Safety
  import Disputes
  import Payments

  /** Only `updateStatus` consults the transition table, yet in an orderly step every
      service moves an order along one of its edges or leaves its status alone. */
  lemma StatusFollowsTable(s: Store, c: Command, id: OrderId)
    requires Reachable(s) && Orderly(s, c) && id in s.orders
    ensures id in Step(s, c).orders
    ensures
      var before, after := s.orders[id].status, Step(s, c).orders[id].status;
      after == before || (HasEdge(before, after) && Rank(before) < Rank(after))
  {
    ReachableInv(s);
    StepFollowsTable(s, c, id);
  }

  lemma StepFollowsTable(s: Store, c: Command, id: OrderId)
    requires CasesInv(s) && Orderly(s, c) && id in s.orders
    ensures id in Step(s, c).orders
    ensures
      var before, after := s.orders[id].status, Step(s, c).orders[id].status;
      after == before || (HasEdge(before, after) && Rank(before) < Rank(after))
  {
    OrderlyCommandsRefine(s, c, id);
    CaseStepFollowsTable(id, CaseOf(s, id), CaseOf(Step(s, c), id), s.now);
    if Step(s, c).orders[id].status != s.orders[id].status {
      EdgesRaiseRank(s.orders[id].status, Step(s, c).orders[id].status);
    }
  }

  /** The same machine is left by a poll exactly when the order has moved past PAID:
      for a record that is not yet a success, the rank survives a confirming poll if and
      only if the order is AWAITING_PAYMENT or PAID. */
  lemma PollKeepsRankIffEarly(s: Store, c: Command)
    requires Reachable(s) && c.VerifyByReference? && Payments.Confirms(s, c.reference, c.v)
    ensures
      var id := s.payments[c.reference].orderId;
      id in Step(s, c).orders
      && (Rank(s.orders[id].status) <= Rank(Step(s, c).orders[id].status) <==>
          s.orders[id].status in {AwaitingPayment, Paid})
  {
    ReachableInv(s);
    Payments.PollingHoldDeclines(s, c.reference, c.v, c.oneKoboOver);
  }

  // How many commands of the run change the status of order `id`.
  function Changes(s: Store, run: seq<Command>, id: OrderId): nat
    decreases run
  {
    if run == [] then 0
    else
      var t := Step(s, run[0]);
      (if id in s.orders && id in t.orders && s.orders[id].status != t.orders[id].status then 1 else 0)
      + Changes(t, run[1..], id)
  }

  lemma {:induction false} ChangesClimbRank(s: Store, run: seq<Command>, id: OrderId)
    requires Inv(s) && OrderlyRun(s, run)
    ensures Changes(s, run, id) <= if id in s.orders then 8 - Rank(s.orders[id].status) else 7
    decreases run
  {
    if run != [] {
      OrderlyKeepsInv(s, run[0]);
      ChangesClimbRank(Step(s, run[0]), run[1..], id);
      if id in s.orders {
        StepFollowsTable(s, run[0], id);
      } else if id in Step(s, run[0]).orders {
        OrdersOnlyAppear(s, run[0]);
        CreatedPendingBuyer(s, run[0]);
      }
    }
  }

  lemma CreatedPendingBuyer(s: Store, c: Command)
    requires c.Create? && c.id !in s.orders && c.id in Step(s, c).orders
    ensures Step(s, c).orders[c.id].status == PendingBuyer
  {
  }

  /** In a whole history, an order changes status at most seven times. */
  lemma AtMostSevenChanges(run: seq<Command>, id: OrderId)
    requires OrderlyRun(EMPTY, run)
    ensures Changes(EMPTY, run, id) <= 7
  {
    assert Inv(EMPTY);
    ChangesClimbRank(EMPTY, run, id);
  }

  lemma TerminalStep(s: Store, c: Command, id: OrderId)
    requires CasesInv(s) && Orderly(s, c) && id in s.orders && Terminal(s.orders[id].status)
    ensures id in Step(s, c).orders && Step(s, c).orders[id].status == s.orders[id].status
    ensures Rows(Step(s, c).ledger, id) == Rows(s.ledger, id)
  {
    OrderlyCommandsRefine(s, c, id);
    CaseStepAbsorbs(id, CaseOf(s, id), CaseOf(Step(s, c), id), s.now);
  }

  /** COMPLETED, CANCELLED and REFUNDED are final: no orderly continuation changes the
      status again, or adds another ledger row to the order. */
  lemma {:induction false} TerminalAbsorbs(s: Store, run: seq<Command>, id: OrderId)
    requires Inv(s) && OrderlyRun(s, run) && id in s.orders && Terminal(s.orders[id].status)
    ensures
      var t := Run(s, run);
      id in t.orders && t.orders[id].status == s.orders[id].status && Rows(t.ledger, id) == Rows(s.ledger, id)
    decreases run
  {
    if run != [] {
      TerminalStep(s, run[0], id);
      OrderlyKeepsInv(s, run[0]);
      TerminalAbsorbs(Step(s, run[0]), run[1..], id);
    }
  }

  /** Timestamps of a journey are in the order of the journey, and none is missing. */
  lemma JourneyIsOrdered(s: Store, id: OrderId)
    requires Reachable(s) && id in s.orders
    ensures
      var t, status := s.orders[id].stamps, s.orders[id].status;
      && NotAfter(t.shipped, t.pickedUp) && NotAfter(t.pickedUp, t.delivered)
      && NotAfter(t.delivered, t.disputed) && NotAfter(t.delivered, t.completed)
      && (t.disputed.Some? && t.completed.Some? ==> t.disputed.value <= t.completed.value)
      && (t.disputed.Some? && t.refunded.Some? ==> t.disputed.value <= t.refunded.value)
      && (status in {Delivered, OrderStatus.Disputed, Completed} ==> t.delivered.Some? && t.delivered.value <= s.now)
  {
    ReachableInv(s);
    assert CaseInv(CaseOf(s, id), s.now);
  }

  /** The defensive "no delivery timestamp" rejection of `raise` can never be given. */
  lemma DeliveryStampIsThere(s: Store, id: OrderId, user: User)
    requires Reachable(s)
    ensures !Disputes.RaiseVerdict(s, id, user).NoDeliveryStamp?
  {
    if id in s.orders {
      JourneyIsOrdered(s, id);
    }
  }
}
