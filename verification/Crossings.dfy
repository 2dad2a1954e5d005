/** When overlapping calls settle the same hold both ways, and the smallest runs in which they
    settle it twice. */
module Crossings {
  import opened Types
  import opened Tables
  import opened Protocol
  import opened Invariant
  import opened Safety
  import opened Races
  import Disputes
  import Escrow
  import Scheduling

  // ------------------------------------------------- crossing transactions

  // Calls that have read before and write in what follows.
  predicate PendingRelease(r: Race, rest: seq<Event>) {
    exists c :: c in r.releases && ReleaseWrites(c) in rest
  }

  predicate PendingRefund(r: Race, rest: seq<Event>) {
    exists c :: c in r.refunds && RefundWrites(c) in rest
  }

  predicate PendingRaise(r: Race, rest: seq<Event>) {
    exists c :: c in r.raises && RaiseWrites(c) in rest
  }

  // The first event of the run settles the hold one way while a call that has read before
  // goes on to settle it the other way, or to raise the dispute that lets a refund do so.
  predicate CrossesAt(r: Race, id: OrderId, run: seq<Event>)
    requires id in r.store.orders && run != []
  {
    var e, rest, t := run[0], run[1..], RaceStep(r, id, run[0]);
    || (ReleaseTime(r, e) != {}
        && (PendingRefund(r, rest) || (PendingRaise(r, rest) && RefundTimes(t, id, rest) != {})))
    || (RefundTime(r, e) != {} && PendingRelease(r, rest))
  }

  predicate Crosses(r: Race, id: OrderId, run: seq<Event>)
    requires id in r.store.orders
    decreases run
  {
    run != [] && (CrossesAt(r, id, run) || Crosses(RaceStep(r, id, run[0]), id, run[1..]))
  }

  // A release or a refund has gone through last, so no call can pass its guards any more.
  predicate Closed(order: Order) {
    || (order.status == Completed && order.escrow == Released)
    || (order.status == OrderStatus.Refunded && order.escrow == EscrowStatus.Refunded)
  }

  predicate ClosedOrDisputed(order: Order) {
    Closed(order) || (order.status == OrderStatus.Disputed && order.escrow == EscrowStatus.Disputed)
  }

  lemma ClosedStep(r: Race, id: OrderId, e: Event)
    requires id in r.store.orders && ClosedOrDisputed(r.store.orders[id])
    ensures
      var t := RaceStep(r, id, e);
      && ClosedOrDisputed(t.store.orders[id]) && t.releases.Keys <= r.releases.Keys
      && (Closed(r.store.orders[id]) ==> t.refunds.Keys <= r.refunds.Keys && t.raises.Keys <= r.raises.Keys)
      && (Closed(r.store.orders[id]) ==> Closed(t.store.orders[id]) || (e.RaiseWrites? && e.call in r.raises))
  {
  }

  lemma {:induction false} LaterReleaseWasPending(r: Race, id: OrderId, run: seq<Event>)
    requires id in r.store.orders && ClosedOrDisputed(r.store.orders[id]) && ReleaseTimes(r, id, run) != {}
    ensures PendingRelease(r, run)
    decreases run
  {
    var t := RaceStep(r, id, run[0]);
    if ReleaseTime(r, run[0]) != {} {
      assert run[0] in run;
    } else {
      ClosedStep(r, id, run[0]);
      LaterReleaseWasPending(t, id, run[1..]);
      var c :| c in t.releases && ReleaseWrites(c) in run[1..];
      assert c in r.releases && ReleaseWrites(c) in run;
    }
  }

  lemma {:induction false} LaterRefundWasPending(r: Race, id: OrderId, run: seq<Event>)
    requires id in r.store.orders && Closed(r.store.orders[id]) && RefundTimes(r, id, run) != {}
    ensures PendingRefund(r, run) || PendingRaise(r, run)
    decreases run
  {
    var t := RaceStep(r, id, run[0]);
    ClosedStep(r, id, run[0]);
    assert run[0] in run;
    if RefundTime(r, run[0]) == {} && Closed(t.store.orders[id]) {
      LaterRefundWasPending(t, id, run[1..]);
      if PendingRefund(t, run[1..]) {
        var c :| c in t.refunds && RefundWrites(c) in run[1..];
        assert c in r.refunds && RefundWrites(c) in run;
      } else {
        var c :| c in t.raises && RaiseWrites(c) in run[1..];
        assert c in r.raises && RaiseWrites(c) in run;
      }
    }
  }

  // The first settlement of a race is not undone by a used reference.
  lemma FirstSettlementCloses(r: Race, id: OrderId, e: Event, hold: LedgerRow, payout: Kobo)
    requires id in r.store.orders && RaceInv(r, id, hold, payout, {}, {})
    requires ReleaseTime(r, e) != {} || RefundTime(r, e) != {}
    ensures Closed(RaceStep(r, id, e).store.orders[id])
    ensures RaceStep(r, id, e).raises == r.raises
    ensures ReleaseTime(r, e) != {} ==> RaceStep(r, id, e).refunds == r.refunds
    ensures RefundTime(r, e) != {} ==> RaceStep(r, id, e).releases == r.releases
  {
  }

  lemma ReleaseFirst(r: Race, id: OrderId, run: seq<Event>, hold: LedgerRow, payout: Kobo)
    requires id in r.store.orders && RaceInv(r, id, hold, payout, {}, {}) && run != []
    ensures ReleaseTime(r, run[0]) != {} && RefundTimes(RaceStep(r, id, run[0]), id, run[1..]) != {} ==>
      CrossesAt(r, id, run)
  {
    if ReleaseTime(r, run[0]) != {} && RefundTimes(RaceStep(r, id, run[0]), id, run[1..]) != {} {
      FirstSettlementCloses(r, id, run[0], hold, payout);
      LaterRefundWasPending(RaceStep(r, id, run[0]), id, run[1..]);
      assert RaceStep(r, id, run[0]).refunds == r.refunds && RaceStep(r, id, run[0]).raises == r.raises;
    }
  }

  lemma RefundFirst(r: Race, id: OrderId, run: seq<Event>, hold: LedgerRow, payout: Kobo)
    requires id in r.store.orders && RaceInv(r, id, hold, payout, {}, {}) && run != []
    ensures RefundTime(r, run[0]) != {} && ReleaseTimes(RaceStep(r, id, run[0]), id, run[1..]) != {} ==>
      CrossesAt(r, id, run)
  {
    if RefundTime(r, run[0]) != {} && ReleaseTimes(RaceStep(r, id, run[0]), id, run[1..]) != {} {
      FirstSettlementCloses(r, id, run[0], hold, payout);
      LaterReleaseWasPending(RaceStep(r, id, run[0]), id, run[1..]);
      assert RaceStep(r, id, run[0]).releases == r.releases;
    }
  }

  lemma {:induction false} BothCross(r: Race, id: OrderId, run: seq<Event>, hold: LedgerRow, payout: Kobo)
    requires id in r.store.orders && RaceInv(r, id, hold, payout, {}, {})
    ensures ReleaseTimes(r, id, run) != {} && RefundTimes(r, id, run) != {} ==> Crosses(r, id, run)
    decreases run
  {
    if run != [] {
      if ReleaseTime(r, run[0]) != {} {
        ReleaseFirst(r, id, run, hold, payout);
      } else if RefundTime(r, run[0]) != {} {
        RefundFirst(r, id, run, hold, payout);
      } else {
        OtherEventsKeep(r, id, run[0], hold, payout, {}, {});
        BothCross(RaceStep(r, id, run[0]), id, run[1..], hold, payout);
      }
    }
  }

  // A call that has read keeps what it read until it writes.
  lemma {:induction false} PendingRefundWrites(r: Race, id: OrderId, run: seq<Event>, c: nat)
    requires id in r.store.orders && c in r.refunds && RefundWrites(c) in run
    ensures RefundTimes(r, id, run) != {}
    decreases run
  {
    if run[0] != RefundWrites(c) {
      PendingRefundWrites(RaceStep(r, id, run[0]), id, run[1..], c);
    }
  }

  lemma {:induction false} PendingReleaseWrites(r: Race, id: OrderId, run: seq<Event>, c: nat)
    requires id in r.store.orders && c in r.releases && ReleaseWrites(c) in run
    ensures ReleaseTimes(r, id, run) != {}
    decreases run
  {
    if run[0] != ReleaseWrites(c) {
      PendingReleaseWrites(RaceStep(r, id, run[0]), id, run[1..], c);
    }
  }

  lemma {:induction false} CrossingSettlesBothWays(r: Race, id: OrderId, run: seq<Event>)
    requires id in r.store.orders && Crosses(r, id, run)
    ensures ReleaseTimes(r, id, run) != {} && RefundTimes(r, id, run) != {}
    decreases run
  {
    var t := RaceStep(r, id, run[0]);
    if !CrossesAt(r, id, run) {
      CrossingSettlesBothWays(t, id, run[1..]);
    } else if RefundTime(r, run[0]) != {} {
      var c :| c in r.releases && ReleaseWrites(c) in run[1..];
      PendingReleaseWrites(t, id, run[1..], c);
    } else if PendingRefund(r, run[1..]) {
      var c :| c in r.refunds && RefundWrites(c) in run[1..];
      PendingRefundWrites(t, id, run[1..], c);
    }
  }

  /** A hold is both released and refunded, in whatever interleaving of releases, refunds and
      disputes, if and only if two transactions cross: one settles it while a call that had
      passed its guards before goes on to settle it the other way, or to raise the dispute
      that a refund then relies on. */
  lemma BothSettlementsIffCross(s: Store, id: OrderId, run: seq<Event>)
    requires Awaited(s, id)
    ensures
      var totals := TotalsOf(Rows(RunRace(Start(s), id, run).store.ledger, id));
      totals.releases > 0 && totals.refunds > 0 <==> Crosses(Start(s), id, run)
  {
    OneSettlementPerReadingTime(s, id, run);
    StartInv(s, id);
    BothCross(Start(s), id, run, Rows(s.ledger, id)[0], s.orders[id].sellerPayout);
    if Crosses(Start(s), id, run) {
      CrossingSettlesBothWays(Start(s), id, run);
    }
  }
  // ------------------------------------------------------ the smallest runs

  lemma CrossesLater(r: Race, id: OrderId, e: Event, rest: seq<Event>)
    requires id in r.store.orders && Crosses(RaceStep(r, id, e), id, rest)
    ensures Crosses(r, id, [e] + rest)
  {
    assert ([e] + rest)[1..] == rest;
  }

  // A refund that overtakes a release: the release has read DELIVERED, then the buyer
  // disputes and is refunded, and then the release writes.
  function Overtaking(trigger: Trigger, buyer: User): seq<Event> {
    [ReleaseReads(1, trigger)] + ([RaiseReads(1, buyer)] + ([RaiseWrites(1)]
      + ([RefundReads(1)] + ([RefundWrites(1)] + [ReleaseWrites(1)]))))
  }

  lemma WritesCross(r: Race, id: OrderId)
    requires id in r.store.orders && 1 in r.releases && 1 in r.refunds
    ensures Crosses(r, id, [RefundWrites(1)] + [ReleaseWrites(1)])
  {
    var run := [RefundWrites(1)] + [ReleaseWrites(1)];
    assert run[1..] == [ReleaseWrites(1)];
    assert ReleaseWrites(1) in run[1..];
    assert CrossesAt(r, id, run);
  }

  lemma RefundReadsAfterRaise(s: Store, id: OrderId, buyer: User)
    requires Disputes.RaiseVerdict(s, id, buyer).Raised? && FindHold(s.ledger, id).Some?
    ensures ReadRefund(WriteRaise(s, id, buyer), id).Some?
  {
  }

  /** Whoever triggers the release, if the buyer may still dispute: the overtaken release
      settles a hold that has been refunded. */
  lemma OvertakenReleaseSettlesTwice(s: Store, id: OrderId, trigger: Trigger, buyer: User)
    requires Awaited(s, id) && Disputes.RaiseVerdict(s, id, buyer).Raised?
    ensures
      var totals := TotalsOf(Rows(RunRace(Start(s), id, Overtaking(trigger, buyer)).store.ledger, id));
      totals.releases > 0 && totals.refunds > 0
  {
    ReachableInv(s);
    Scheduling.JobReleasesDelivered(s, id);
    RefundReadsAfterRaise(s, id, buyer);
    OvertakingCrosses(s, id, trigger, buyer);
    BothSettlementsIffCross(s, id, Overtaking(trigger, buyer));
  }

  // From the raised dispute on.
  lemma DisputedCrosses(s: Store, id: OrderId, releases: map<nat, ReleaseCall>)
    requires id in s.orders && 1 in releases && ReadRefund(s, id).Some?
    ensures Crosses(Race(s, releases, map[], map[]), id,
                    [RefundReads(1)] + ([RefundWrites(1)] + [ReleaseWrites(1)]))
  {
    var r := Race(s, releases, map[], map[]);
    WritesCross(RaceStep(r, id, RefundReads(1)), id);
    CrossesLater(r, id, RefundReads(1), [RefundWrites(1)] + [ReleaseWrites(1)]);
  }

  lemma RaiseSteps(s: Store, id: OrderId, releases: map<nat, ReleaseCall>, buyer: User)
    requires Disputes.RaiseVerdict(s, id, buyer).Raised?
    ensures RaceStep(Race(s, releases, map[], map[]), id, RaiseReads(1, buyer)) ==
            Race(s, releases, map[], map[1 := buyer])
    ensures RaceStep(Race(s, releases, map[], map[1 := buyer]), id, RaiseWrites(1)) ==
            Race(WriteRaise(s, id, buyer), releases, map[], map[])
  {
    assert map[1 := buyer] - {1} == map[];
  }

  lemma RaisingCrosses(s: Store, id: OrderId, releases: map<nat, ReleaseCall>, buyer: User)
    requires Disputes.RaiseVerdict(s, id, buyer).Raised? && 1 in releases
    requires ReadRefund(WriteRaise(s, id, buyer), id).Some?
    ensures Crosses(Race(s, releases, map[], map[]), id,
                    [RaiseReads(1, buyer)] + ([RaiseWrites(1)]
                      + ([RefundReads(1)] + ([RefundWrites(1)] + [ReleaseWrites(1)]))))
  {
    var rest := [RefundReads(1)] + ([RefundWrites(1)] + [ReleaseWrites(1)]);
    var b := Race(s, releases, map[], map[1 := buyer]);
    RaiseSteps(s, id, releases, buyer);
    DisputedCrosses(WriteRaise(s, id, buyer), id, releases);
    CrossesLater(b, id, RaiseWrites(1), rest);
    CrossesLater(Race(s, releases, map[], map[]), id, RaiseReads(1, buyer), [RaiseWrites(1)] + rest);
  }

  lemma OvertakingCrosses(s: Store, id: OrderId, trigger: Trigger, buyer: User)
    requires ReadRelease(s, id, trigger).Some? && Disputes.RaiseVerdict(s, id, buyer).Raised?
    requires ReadRefund(WriteRaise(s, id, buyer), id).Some?
    ensures Crosses(Start(s), id, Overtaking(trigger, buyer))
  {
    RaisingCrosses(s, id, map[1 := ReadRelease(s, id, trigger).value], buyer);
    CrossesLater(Start(s), id, ReleaseReads(1, trigger),
                 [RaiseReads(1, buyer)] + ([RaiseWrites(1)]
                   + ([RefundReads(1)] + ([RefundWrites(1)] + [ReleaseWrites(1)]))));
  }

  // Two releases that both read before either writes.
  function TwoReleases(first: Trigger, second: Trigger, elapsed: nat): seq<Event> {
    [ReleaseReads(1, first)] + ([Pass(elapsed)] + ([ReleaseReads(2, second)]
      + ([ReleaseWrites(1)] + ([ReleaseWrites(2)] + []))))
  }

  lemma TimesCons(r: Race, id: OrderId, e: Event, rest: seq<Event>)
    requires id in r.store.orders
    ensures ReleaseTimes(r, id, [e] + rest) == ReleaseTime(r, e) + ReleaseTimes(RaceStep(r, id, e), id, rest)
  {
    assert ([e] + rest)[1..] == rest;
  }

  lemma TwoWriteTimes(r: Race, id: OrderId)
    requires id in r.store.orders && 1 in r.releases && 2 in r.releases
    ensures ReleaseTimes(r, id, [ReleaseWrites(1)] + ([ReleaseWrites(2)] + [])) ==
            {r.releases[1].at, r.releases[2].at}
  {
    TimesCons(r, id, ReleaseWrites(1), [ReleaseWrites(2)] + []);
    TimesCons(RaceStep(r, id, ReleaseWrites(1)), id, ReleaseWrites(2), []);
  }

  // The second call reads the same order as the first.
  lemma SecondReads(s: Store, id: OrderId, second: Trigger, elapsed: nat)
    requires Escrow.ReleaseVerdict(s, id).ReleaseDone?
    ensures
      var read := ReadRelease(s.(now := s.now + elapsed), id, second);
      read.Some? && read.value.at == s.now + elapsed
  {
  }

  lemma SecondCallTimes(later: Store, id: OrderId, read: ReleaseCall, second: Trigger)
    requires Escrow.ReleaseVerdict(later, id).ReleaseDone?
    ensures ReleaseTimes(Race(later, map[1 := read], map[], map[]), id,
                         [ReleaseReads(2, second)] + ([ReleaseWrites(1)] + ([ReleaseWrites(2)] + []))) ==
            {read.at, later.now}
  {
    SecondReads(later, id, second, 0);
    var both := map[1 := read, 2 := ReadRelease(later, id, second).value];
    TimesCons(Race(later, map[1 := read], map[], map[]), id, ReleaseReads(2, second),
              [ReleaseWrites(1)] + ([ReleaseWrites(2)] + []));
    TwoWriteTimes(Race(later, both, map[], map[]), id);
  }

  lemma TwoReleasesTimes(s: Store, id: OrderId, first: Trigger, second: Trigger, elapsed: nat)
    requires Escrow.ReleaseVerdict(s, id).ReleaseDone?
    ensures ReleaseTimes(Start(s), id, TwoReleases(first, second, elapsed)) == {s.now, s.now + elapsed}
  {
    SecondReads(s, id, first, 0);
    SecondReads(s, id, second, elapsed);
    var read := ReadRelease(s, id, first).value;
    var rest := [ReleaseReads(2, second)] + ([ReleaseWrites(1)] + ([ReleaseWrites(2)] + []));
    TimesCons(Start(s), id, ReleaseReads(1, first), [Pass(elapsed)] + rest);
    TimesCons(Race(s, map[1 := read], map[], map[]), id, Pass(elapsed), rest);
    SecondCallTimes(s.(now := s.now + elapsed), id, read, second);
  }

  /** Two such releases write two FULL_RELEASE rows, unless they read in the same millisecond. */
  lemma TwoCallsReleaseTwice(s: Store, id: OrderId, first: Trigger, second: Trigger, elapsed: nat)
    requires Awaited(s, id)
    ensures
      var after := RunRace(Start(s), id, TwoReleases(first, second, elapsed)).store;
      Escrow.CountOf(Rows(after.ledger, id), FullRelease) == if elapsed == 0 then 1 else 2
  {
    OneSettlementPerReadingTime(s, id, TwoReleases(first, second, elapsed));
    ReachableInv(s);
    Scheduling.JobReleasesDelivered(s, id);
    TwoReleasesTimes(s, id, first, second, elapsed);
    assert elapsed == 0 ==> {s.now, s.now + elapsed} == {s.now};
    assert elapsed != 0 ==> |{s.now, s.now + elapsed}| == 2;
  }
}
