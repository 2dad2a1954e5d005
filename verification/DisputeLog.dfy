/** The event log of disputes against the dispute rows. */
module DisputeLog {
  import opened Types
  import opened Tables
  import opened Protocol
  import Disputes

  function EventsOf(events: seq<DisputeEvent>, id: OrderId): seq<DisputeEvent> {
    if events == [] then []
    else
      var last := events[|events| - 1];
      var before := EventsOf(events[..|events| - 1], id);
      if last.orderId == id then before + [last] else before
  }

  lemma EventsSnoc(events: seq<DisputeEvent>, event: DisputeEvent, id: OrderId)
    ensures EventsOf(events + [event], id) ==
            if event.orderId == id then EventsOf(events, id) + [event] else EventsOf(events, id)
  {
    assert (events + [event])[..|events|] == events;
  }

  // What a dispute row says must have happened.
  function History(dispute: Option<Dispute>, id: OrderId): seq<DisputeEvent> {
    match dispute
    case None => []
    case Some(Dispute(raisedBy, state, resolvedBy)) =>
      [RaisedEvent(id, raisedBy)]
      + if state.Resolved? && resolvedBy.Some?
        then [ResolvedEvent(id, resolvedBy.value, state.resolution)] else []
  }

  function DisputeOf(s: Store, id: OrderId): Option<Dispute> {
    if id in s.disputes then Some(s.disputes[id]) else None
  }

  predicate Agree(s: Store, id: OrderId) {
    && EventsOf(s.disputeEvents, id) == History(DisputeOf(s, id), id)
    && (id in s.disputes ==> (s.disputes[id].state.Resolved? <==> s.disputes[id].resolvedBy.Some?))
  }

  predicate SameDisputeTables(s: Store, t: Store) {
    t.disputes == s.disputes && t.disputeEvents == s.disputeEvents
  }

  lemma OrderStepLeavesDisputes(s: Store, c: Command)
    requires OrderCommand(c)
    ensures SameDisputeTables(s, OrderStep(s, c))
  {
  }

  lemma PaymentStepLeavesDisputes(s: Store, c: Command)
    requires PaymentCommand(c)
    ensures SameDisputeTables(s, PaymentStep(s, c))
  {
  }

  lemma OthersLeaveDisputes(s: Store, c: Command)
    requires !DisputeCommand(c)
    ensures SameDisputeTables(s, Step(s, c))
  {
    if OrderCommand(c) {
      OrderStepLeavesDisputes(s, c);
    } else if PaymentCommand(c) {
      PaymentStepLeavesDisputes(s, c);
    }
  }

  lemma RaiseAgrees(s: Store, raised: OrderId, user: User, id: OrderId)
    requires Agree(s, id)
    ensures Agree(Disputes.AfterRaise(s, raised, user), id)
  {
    EventsSnoc(s.disputeEvents, RaisedEvent(raised, user.id), id);
  }

  lemma CommitAgrees(s: Store, ticket: Ticket, id: OrderId)
    requires Agree(s, id)
    ensures Agree(Disputes.AfterResolveCommit(s, ticket), id)
  {
    EventsSnoc(s.disputeEvents, ResolvedEvent(ticket.orderId, ticket.admin, ticket.resolution), id);
  }

  lemma DisputeStepAgrees(s: Store, c: Command, id: OrderId)
    requires DisputeCommand(c) && Agree(s, id)
    ensures Agree(DisputeStep(s, c), id)
  {
    match c
    case RaiseDispute(raised, user) => RaiseAgrees(s, raised, user, id);
    case ResolveRead(_, _, _, _) =>
    case ResolveCommit(ticket) => CommitAgrees(s, ticket, id);
  }

  lemma {:induction false} AgreeAlongRun(s: Store, run: seq<Command>, id: OrderId)
    requires Agree(s, id)
    ensures Agree(Run(s, run), id)
    decreases run
  {
    if run != [] {
      if DisputeCommand(run[0]) {
        DisputeStepAgrees(s, run[0], id);
      } else {
        OthersLeaveDisputes(s, run[0]);
      }
      AgreeAlongRun(Step(s, run[0]), run[1..], id);
    }
  }

  /** After any run at all, orderly or not, an order's dispute events are exactly what its
      dispute row says: nothing without a dispute, one RAISED event by the buyer who raised
      it, and one RESOLVED event, by the administrator and with the decision of the row, if
      and only if it is resolved. No dispute is ever raised or resolved twice. */
  lemma EventsTellTheDispute(run: seq<Command>, id: OrderId)
    ensures
      var s := Run(EMPTY, run);
      EventsOf(s.disputeEvents, id) == History(DisputeOf(s, id), id)
  {
    AgreeAlongRun(EMPTY, run, id);
  }
}
