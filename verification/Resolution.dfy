/** Administrators who resolve the same dispute at the same time. */
module Resolution {
  import opened Types
  import opened Tables
  import opened Protocol
  import Disputes

  // Reads and commits of resolve calls for one order, and the clock, in any interleaving.
  predicate ResolvesOnly(run: seq<Command>, id: OrderId) {
    forall i :: 0 <= i < |run| ==>
      || run[i].Tick?
      || (run[i].ResolveRead? && run[i].id == id)
      || (run[i].ResolveCommit? && run[i].ticket.orderId == id)
  }

  // The tickets whose commits succeed, in order.
  function Winners(s: Store, run: seq<Command>): seq<Ticket>
    decreases run
  {
    if run == [] then []
    else
      (if run[0].ResolveCommit? && Disputes.Commits(s, run[0].ticket) then [run[0].ticket] else [])
      + Winners(Step(s, run[0]), run[1..])
  }

  predicate DisputeOpen(s: Store, id: OrderId) {
    id in s.orders && s.orders[id].status == OrderStatus.Disputed && id in s.disputes && s.disputes[id].state.Open?
  }

  predicate SameDisputes(s: Store, t: Store) {
    && t.orders == s.orders && t.ledger == s.ledger
    && t.disputes == s.disputes && t.disputeEvents == s.disputeEvents
  }

  lemma OnlyCommitsWrite(s: Store, c: Command)
    requires c.Tick? || c.ResolveRead? || (c.ResolveCommit? && !Disputes.Commits(s, c.ticket))
    ensures SameDisputes(s, Step(s, c))
  {
  }

  lemma CommitWrites(s: Store, ticket: Ticket)
    requires Disputes.Commits(s, ticket)
    ensures Step(s, ResolveCommit(ticket)) == Disputes.AfterResolveCommit(s, ticket)
  {
  }

  lemma {:induction false} ClosedStaysClosed(s: Store, run: seq<Command>, id: OrderId)
    requires ResolvesOnly(run, id) && id in s.orders && id in s.disputes && !s.disputes[id].state.Open?
    ensures Winners(s, run) == []
    ensures
      var t := Run(s, run);
      SameDisputes(s, t)
    decreases run
  {
    if run != [] {
      OnlyCommitsWrite(s, run[0]);
      ClosedStaysClosed(Step(s, run[0]), run[1..], id);
    }
  }

  /** However many administrators interleave their reads and commits, at most one commit
      succeeds; then exactly one RESOLVED event is written, and the order and the dispute
      end as that administrator decided. Without a success nothing has changed. */
  lemma {:induction false} OneResolutionWins(s: Store, run: seq<Command>, id: OrderId)
    requires ResolvesOnly(run, id) && DisputeOpen(s, id)
    ensures
      var t, winners := Run(s, run), Winners(s, run);
      && |winners| <= 1 && id in t.orders && id in t.disputes
      && (winners == [] ==> SameDisputes(s, t))
      && (|winners| == 1 ==>
            && t.disputeEvents == s.disputeEvents + [ResolvedEvent(id, winners[0].admin, winners[0].resolution)]
            && t.orders[id].status == Disputes.Target(winners[0].resolution)
            && t.orders[id].escrow ==
               (if winners[0].resolution == ForBuyer then EscrowStatus.Refunded else Released)
            && t.disputes[id] ==
               s.disputes[id].(state := Resolved(winners[0].resolution), resolvedBy := Some(winners[0].admin))
            && t.ledger == s.ledger)
    decreases run
  {
    if run != [] {
      var t := Step(s, run[0]);
      if run[0].ResolveCommit? && Disputes.Commits(s, run[0].ticket) {
        CommitWrites(s, run[0].ticket);
        ClosedStaysClosed(t, run[1..], id);
      } else {
        OnlyCommitsWrite(s, run[0]);
        OneResolutionWins(t, run[1..], id);
      }
    }
  }

  /** The lock does not just refuse: the first commit after a successful read wins. */
  lemma FirstCommitWins(s: Store, call: nat, admin: User, resolution: Resolution, others: seq<Command>, id: OrderId)
    requires DisputeOpen(s, id) && admin.isAdmin && ResolvesOnly(others, id)
    ensures
      var ticket := Ticket(call, id, admin.id, resolution);
      Winners(s, [ResolveRead(call, id, admin, resolution), ResolveCommit(ticket)] + others) == [ticket]
  {
    var ticket := Ticket(call, id, admin.id, resolution);
    var run := [ResolveRead(call, id, admin, resolution), ResolveCommit(ticket)] + others;
    var t := Step(s, run[0]);
    assert run[1..][1..] == others && run[1..][0] == ResolveCommit(ticket);
    assert Disputes.Commits(t, ticket);
    ClosedStaysClosed(Step(t, ResolveCommit(ticket)), others, id);
  }
}
