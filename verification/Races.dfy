/** Calls that overlap. The guards of releaseFunds, refundFunds and raise are read before
    their transactions, so each call is split here into what it reads and what it then writes. */
module Races {
  import opened Types
  import opened Tables
  import opened Protocol
  import opened OrderCases
  import opened Invariant
  import opened Safety
  import Blocking
  import Conservation
  import Disputes
  import Escrow

  // ---------------------------------------------------------------- the calls

  // What a call has read when its transaction begins; `at` is the time in its references.
  datatype ReleaseCall = ReleaseCall(order: Order, hold: LedgerRow, at: Time, trigger: Trigger)
  datatype RefundCall = RefundCall(hold: LedgerRow, at: Time)

  function ReadRelease(s: Store, id: OrderId, trigger: Trigger): Option<ReleaseCall> {
    if Escrow.ReleaseVerdict(s, id).ReleaseDone?
    then Some(ReleaseCall(s.orders[id], FindHold(s.ledger, id).value, s.now, trigger))
    else None
  }

  // The transaction writes from what was read, and a used reference undoes it.
  function WriteRelease(s: Store, id: OrderId, call: ReleaseCall): Store
    requires id in s.orders
  {
    if RefTaken(s.ledger, FeeFor(id, call.at)) || RefTaken(s.ledger, ReleaseOf(id, call.at)) then s
    else
      s.(ledger := s.ledger + [Escrow.FeeRow(call.order, call.hold, id, call.at)]
                            + [Escrow.ReleaseRow(call.order, id, call.at)],
         orders := s.orders[id := Escrow.ReleasedOrder(s.orders[id], s.now)],
         audit := s.audit + [Escrow.ReleaseAudit(call.order, call.hold, id, call.at, call.trigger)],
         jobs := if call.trigger == ByAutoRelease then s.jobs else s.jobs - {id})
  }

  function ReadRefund(s: Store, id: OrderId): Option<RefundCall> {
    if Escrow.RefundVerdict(s, id).RefundDone? then Some(RefundCall(FindHold(s.ledger, id).value, s.now)) else None
  }

  function WriteRefund(s: Store, id: OrderId, call: RefundCall): Store
    requires id in s.orders
  {
    if RefTaken(s.ledger, RefundOf(id, call.at)) then s
    else
      s.(ledger := s.ledger + [Escrow.RefundRow(call.hold, id, call.at)],
         orders := s.orders[id := Escrow.RefundedOrder(s.orders[id], s.now)],
         audit := s.audit + [Escrow.RefundAudit(call.hold, id, call.at)],
         jobs := s.jobs - {id})
  }

  // Whether there is a dispute already is read inside the transaction.
  predicate ReadsRaise(s: Store, id: OrderId, user: User) {
    Disputes.RaiseVerdict(s, id, user) in {Disputes.Raised, Disputes.DisputeExists}
  }

  function WriteRaise(s: Store, id: OrderId, user: User): Store
    requires id in s.orders
  {
    if id in s.disputes then s
    else
      s.(disputes := s.disputes[id := Dispute(user.id, Open, None)],
         orders := s.orders[id := Disputes.DisputedOrder(s.orders[id], s.now)],
         disputeEvents := s.disputeEvents + [RaisedEvent(id, user.id)])
  }

  /** With nothing in between, the two halves are the calls of the other modules. */
  lemma UndisturbedReleaseIsAtomic(s: Store, id: OrderId, trigger: Trigger)
    requires Inv(s) && ReadRelease(s, id, trigger).Some?
    ensures WriteRelease(s, id, ReadRelease(s, id, trigger).value) == Escrow.AfterRelease(s, id, trigger)
  {
    SettledFromHeld(s, id);
    HeldRefsAreFree(s, id, FeeFor(id, s.now));
    HeldRefsAreFree(s, id, ReleaseOf(id, s.now));
  }

  lemma UndisturbedRefundIsAtomic(s: Store, id: OrderId)
    requires Inv(s) && ReadRefund(s, id).Some?
    ensures WriteRefund(s, id, ReadRefund(s, id).value) == Escrow.AfterRefund(s, id)
  {
    SettledFromHeld(s, id);
    HeldRefsAreFree(s, id, RefundOf(id, s.now));
  }

  lemma UndisturbedRaiseIsAtomic(s: Store, id: OrderId, user: User)
    requires ReadsRaise(s, id, user)
    ensures WriteRaise(s, id, user) == Disputes.AfterRaise(s, id, user)
  {
  }

  // ------------------------------------------------------------ interleavings

  // Calls are numbered by their kind.
  datatype Event =
    | ReleaseReads(call: nat, trigger: Trigger) | ReleaseWrites(call: nat)
    | RefundReads(call: nat) | RefundWrites(call: nat)
    | RaiseReads(call: nat, user: User) | RaiseWrites(call: nat)
    | Pass(elapsed: nat)

  // The tables, and the calls that have read and not yet written.
  datatype Race = Race(store: Store, releases: map<nat, ReleaseCall>, refunds: map<nat, RefundCall>,
                       raises: map<nat, User>)

  function Start(s: Store): Race {
    Race(s, map[], map[], map[])
  }

  function RaceStep(r: Race, id: OrderId, e: Event): (t: Race)
    requires id in r.store.orders
    ensures id in t.store.orders
  {
    match e
    case ReleaseReads(call, trigger) =>
      var read := ReadRelease(r.store, id, trigger);
      if call in r.releases || read.None? then r else r.(releases := r.releases[call := read.value])
    case ReleaseWrites(call) =>
      if call !in r.releases then r
      else r.(store := WriteRelease(r.store, id, r.releases[call]), releases := r.releases - {call})
    case RefundReads(call) =>
      var read := ReadRefund(r.store, id);
      if call in r.refunds || read.None? then r else r.(refunds := r.refunds[call := read.value])
    case RefundWrites(call) =>
      if call !in r.refunds then r
      else r.(store := WriteRefund(r.store, id, r.refunds[call]), refunds := r.refunds - {call})
    case RaiseReads(call, user) =>
      if call in r.raises || !ReadsRaise(r.store, id, user) then r else r.(raises := r.raises[call := user])
    case RaiseWrites(call) =>
      if call !in r.raises then r
      else r.(store := WriteRaise(r.store, id, r.raises[call]), raises := r.raises - {call})
    case Pass(elapsed) => r.(store := r.store.(now := r.store.now + elapsed))
  }

  function RunRace(r: Race, id: OrderId, run: seq<Event>): (t: Race)
    requires id in r.store.orders
    ensures id in t.store.orders
    decreases run
  {
    if run == [] then r else RunRace(RaceStep(r, id, run[0]), id, run[1..])
  }

  // The reading time of the release, or of the refund, that writes in this event, if any.
  function ReleaseTime(r: Race, e: Event): set<Time> {
    if e.ReleaseWrites? && e.call in r.releases then {r.releases[e.call].at} else {}
  }

  function RefundTime(r: Race, e: Event): set<Time> {
    if e.RefundWrites? && e.call in r.refunds then {r.refunds[e.call].at} else {}
  }

  function ReleaseTimes(r: Race, id: OrderId, run: seq<Event>): set<Time>
    requires id in r.store.orders
    decreases run
  {
    if run == [] then {} else ReleaseTime(r, run[0]) + ReleaseTimes(RaceStep(r, id, run[0]), id, run[1..])
  }

  function RefundTimes(r: Race, id: OrderId, run: seq<Event>): set<Time>
    requires id in r.store.orders
    decreases run
  {
    if run == [] then {} else RefundTime(r, run[0]) + RefundTimes(RaceStep(r, id, run[0]), id, run[1..])
  }

  // ------------------------------------------------------- counting the rows

  datatype Totals = Totals(releases: nat, fees: nat, refunds: nat,
                           releaseSum: Kobo, feeSum: Kobo, refundSum: Kobo)

  function TotalsOf(rows: seq<LedgerRow>): Totals {
    Totals(Escrow.CountOf(rows, FullRelease), Escrow.CountOf(rows, PlatformFee),
           Escrow.CountOf(rows, LedgerKind.Refund),
           Escrow.SumOf(rows, FullRelease), Escrow.SumOf(rows, PlatformFee), Escrow.SumOf(rows, LedgerKind.Refund))
  }

  function Plus(t: Totals, row: LedgerRow): Totals {
    match row.kind
    case EscrowHold => t
    case FullRelease => t.(releases := t.releases + 1, releaseSum := t.releaseSum + row.amount)
    case PlatformFee => t.(fees := t.fees + 1, feeSum := t.feeSum + row.amount)
    case Refund => t.(refunds := t.refunds + 1, refundSum := t.refundSum + row.amount)
  }

  lemma TotalsSnoc(rows: seq<LedgerRow>, row: LedgerRow)
    ensures TotalsOf(rows + [row]) == Plus(TotalsOf(rows), row)
  {
    assert (rows + [row])[..|rows|] == rows;
  }

  function Times(n: nat, amount: Kobo): Kobo {
    if n == 0 then 0 else Times(n - 1, amount) + amount
  }

  lemma {:induction false} TimesIsProduct(n: nat, amount: Kobo)
    ensures Times(n, amount) == n * amount
  {
    if n > 0 {
      TimesIsProduct(n - 1, amount);
    }
  }

  // `n` releases and `m` refunds of the same hold.
  function Expected(n: nat, m: nat, payout: Kobo, held: Kobo): Totals {
    Totals(n, n, m, Times(n, payout), Times(n, held - payout), Times(m, held))
  }

  ghost predicate TimesTaken(ledger: seq<LedgerRow>, id: OrderId, released: set<Time>, refunded: set<Time>) {
    && (forall t :: RefTaken(ledger, FeeFor(id, t)) <==> t in released)
    && (forall t :: RefTaken(ledger, ReleaseOf(id, t)) <==> t in released)
    && (forall t :: RefTaken(ledger, RefundOf(id, t)) <==> t in refunded)
  }

  ghost predicate LedgerPart(ledger: seq<LedgerRow>, id: OrderId, hold: LedgerRow, payout: Kobo,
                             released: set<Time>, refunded: set<Time>) {
    && FindHold(ledger, id) == Some(hold)
    && TimesTaken(ledger, id, released, refunded)
    && TotalsOf(Rows(ledger, id)) == Expected(|released|, |refunded|, payout, hold.amount)
  }

  // `released` and `refunded` are the reading times of the transactions that have gone through.
  ghost predicate RaceInv(r: Race, id: OrderId, hold: LedgerRow, payout: Kobo,
                          released: set<Time>, refunded: set<Time>)
    requires id in r.store.orders
  {
    && (forall c :: c in r.releases ==> r.releases[c].hold == hold && r.releases[c].order.sellerPayout == payout)
    && (forall c :: c in r.refunds ==> r.refunds[c].hold == hold)
    && r.store.orders[id].sellerPayout == payout
    && LedgerPart(r.store.ledger, id, hold, payout, released, refunded)
  }

  lemma TakenSnoc(ledger: seq<LedgerRow>, row: LedgerRow, reference: LedgerRef)
    ensures RefTaken(ledger + [row], reference) <==> RefTaken(ledger, reference) || row.reference == reference
  {
    if RefTaken(ledger, reference) {
      var i :| 0 <= i < |ledger| && ledger[i].reference == reference;
      assert (ledger + [row])[i].reference == reference;
    }
    assert (ledger + [row])[|ledger|] == row;
  }

  lemma TakenBySnoc(ledger: seq<LedgerRow>, row: LedgerRow, id: OrderId, t: Time)
    ensures RefTaken(ledger + [row], FeeFor(id, t)) <==>
            RefTaken(ledger, FeeFor(id, t)) || row.reference == FeeFor(id, t)
    ensures RefTaken(ledger + [row], ReleaseOf(id, t)) <==>
            RefTaken(ledger, ReleaseOf(id, t)) || row.reference == ReleaseOf(id, t)
    ensures RefTaken(ledger + [row], RefundOf(id, t)) <==>
            RefTaken(ledger, RefundOf(id, t)) || row.reference == RefundOf(id, t)
  {
    TakenSnoc(ledger, row, FeeFor(id, t));
    TakenSnoc(ledger, row, ReleaseOf(id, t));
    TakenSnoc(ledger, row, RefundOf(id, t));
  }

  lemma ReleaseTakesTime(ledger: seq<LedgerRow>, fee: LedgerRow, paid: LedgerRow, id: OrderId, at: Time,
                         released: set<Time>, refunded: set<Time>)
    requires TimesTaken(ledger, id, released, refunded)
    requires fee.reference == FeeFor(id, at) && paid.reference == ReleaseOf(id, at)
    ensures TimesTaken(ledger + [fee] + [paid], id, released + {at}, refunded)
  {
    forall t
      ensures RefTaken(ledger + [fee] + [paid], FeeFor(id, t)) <==> t in released + {at}
      ensures RefTaken(ledger + [fee] + [paid], ReleaseOf(id, t)) <==> t in released + {at}
      ensures RefTaken(ledger + [fee] + [paid], RefundOf(id, t)) <==> t in refunded
    {
      TakenBySnoc(ledger, fee, id, t);
      TakenBySnoc(ledger + [fee], paid, id, t);
    }
  }

  lemma RefundTakesTime(ledger: seq<LedgerRow>, row: LedgerRow, id: OrderId, at: Time,
                        released: set<Time>, refunded: set<Time>)
    requires TimesTaken(ledger, id, released, refunded) && row.reference == RefundOf(id, at)
    ensures TimesTaken(ledger + [row], id, released, refunded + {at})
  {
    forall t
      ensures RefTaken(ledger + [row], FeeFor(id, t)) <==> t in released
      ensures RefTaken(ledger + [row], ReleaseOf(id, t)) <==> t in released
      ensures RefTaken(ledger + [row], RefundOf(id, t)) <==> t in refunded + {at}
    {
      TakenBySnoc(ledger, row, id, t);
    }
  }

  lemma ReleaseAddsUp(rows: seq<LedgerRow>, fee: LedgerRow, paid: LedgerRow, n: nat, m: nat, payout: Kobo, held: Kobo)
    requires TotalsOf(rows) == Expected(n, m, payout, held)
    requires fee.kind.PlatformFee? && fee.amount == held - payout
    requires paid.kind.FullRelease? && paid.amount == payout
    ensures TotalsOf(rows + [fee] + [paid]) == Expected(n + 1, m, payout, held)
  {
    TotalsSnoc(rows, fee);
    TotalsSnoc(rows + [fee], paid);
  }

  lemma RefundAddsUp(rows: seq<LedgerRow>, row: LedgerRow, n: nat, m: nat, payout: Kobo, held: Kobo)
    requires TotalsOf(rows) == Expected(n, m, payout, held)
    requires row.kind.Refund? && row.amount == held
    ensures TotalsOf(rows + [row]) == Expected(n, m + 1, payout, held)
  {
    TotalsSnoc(rows, row);
  }

  lemma PairRows(ledger: seq<LedgerRow>, fee: LedgerRow, paid: LedgerRow, id: OrderId)
    requires fee.orderId == id && paid.orderId == id && FindHold(ledger, id).Some?
    ensures Rows(ledger + [fee] + [paid], id) == Rows(ledger, id) + [fee] + [paid]
    ensures FindHold(ledger + [fee] + [paid], id) == FindHold(ledger, id)
  {
    RowStays(ledger, fee, id);
    RowStays(ledger + [fee], paid, id);
  }

  lemma RowStays(ledger: seq<LedgerRow>, row: LedgerRow, id: OrderId)
    requires row.orderId == id && FindHold(ledger, id).Some?
    ensures Rows(ledger + [row], id) == Rows(ledger, id) + [row]
    ensures FindHold(ledger + [row], id) == FindHold(ledger, id)
  {
    RowsSnoc(ledger, row, id);
    Blocking.FirstHoldStays(Rows(ledger, id), row);
  }

  // One more time among those taken, as a number.
  lemma OneMore(times: set<Time>, at: Time)
    requires at !in times
    ensures |times + {at}| == |times| + 1
  {
  }

  lemma ReleaseWrittenKeeps(ledger: seq<LedgerRow>, fee: LedgerRow, paid: LedgerRow, id: OrderId, at: Time,
                            hold: LedgerRow, payout: Kobo, released: set<Time>, refunded: set<Time>)
    requires LedgerPart(ledger, id, hold, payout, released, refunded) && at !in released
    requires fee.orderId == id && fee.kind.PlatformFee? && fee.amount == hold.amount - payout
    requires paid.orderId == id && paid.kind.FullRelease? && paid.amount == payout
    requires fee.reference == FeeFor(id, at) && paid.reference == ReleaseOf(id, at)
    ensures LedgerPart(ledger + [fee] + [paid], id, hold, payout, released + {at}, refunded)
  {
    PairRows(ledger, fee, paid, id);
    OneMore(released, at);
    ReleaseTakesTime(ledger, fee, paid, id, at, released, refunded);
    ReleaseAddsUp(Rows(ledger, id), fee, paid, |released|, |refunded|, payout, hold.amount);
  }

  lemma RefundWrittenKeeps(ledger: seq<LedgerRow>, row: LedgerRow, id: OrderId, at: Time,
                           hold: LedgerRow, payout: Kobo, released: set<Time>, refunded: set<Time>)
    requires LedgerPart(ledger, id, hold, payout, released, refunded) && at !in refunded
    requires row.orderId == id && row.kind.Refund? && row.amount == hold.amount && row.reference == RefundOf(id, at)
    ensures LedgerPart(ledger + [row], id, hold, payout, released, refunded + {at})
  {
    RowStays(ledger, row, id);
    OneMore(refunded, at);
    RefundTakesTime(ledger, row, id, at, released, refunded);
    RefundAddsUp(Rows(ledger, id), row, |released|, |refunded|, payout, hold.amount);
  }

  lemma ReleaseWritesKeeps(r: Race, id: OrderId, call: nat, hold: LedgerRow, payout: Kobo,
                           released: set<Time>, refunded: set<Time>)
    requires id in r.store.orders && RaceInv(r, id, hold, payout, released, refunded) && call in r.releases
    ensures RaceInv(RaceStep(r, id, ReleaseWrites(call)), id, hold, payout, released + {r.releases[call].at}, refunded)
  {
    var c := r.releases[call];
    if c.at in released {
      assert released + {c.at} == released;
    } else {
      ReleaseWrittenKeeps(r.store.ledger, Escrow.FeeRow(c.order, c.hold, id, c.at),
                          Escrow.ReleaseRow(c.order, id, c.at), id, c.at, hold, payout, released, refunded);
    }
  }

  lemma RefundWritesKeeps(r: Race, id: OrderId, call: nat, hold: LedgerRow, payout: Kobo,
                          released: set<Time>, refunded: set<Time>)
    requires id in r.store.orders && RaceInv(r, id, hold, payout, released, refunded) && call in r.refunds
    ensures RaceInv(RaceStep(r, id, RefundWrites(call)), id, hold, payout, released, refunded + {r.refunds[call].at})
  {
    var c := r.refunds[call];
    if c.at in refunded {
      assert refunded + {c.at} == refunded;
    } else {
      RefundWrittenKeeps(r.store.ledger, Escrow.RefundRow(c.hold, id, c.at), id, c.at, hold, payout,
                         released, refunded);
    }
  }

  lemma OtherEventsKeep(r: Race, id: OrderId, e: Event, hold: LedgerRow, payout: Kobo,
                        released: set<Time>, refunded: set<Time>)
    requires id in r.store.orders && RaceInv(r, id, hold, payout, released, refunded)
    requires ReleaseTime(r, e) == {} && RefundTime(r, e) == {}
    ensures RaceInv(RaceStep(r, id, e), id, hold, payout, released, refunded)
  {
  }

  lemma EventKeeps(r: Race, id: OrderId, e: Event, hold: LedgerRow, payout: Kobo,
                   released: set<Time>, refunded: set<Time>)
    requires id in r.store.orders && RaceInv(r, id, hold, payout, released, refunded)
    ensures RaceInv(RaceStep(r, id, e), id, hold, payout, released + ReleaseTime(r, e), refunded + RefundTime(r, e))
  {
    assert released + {} == released && refunded + {} == refunded;
    if e.ReleaseWrites? && e.call in r.releases {
      ReleaseWritesKeeps(r, id, e.call, hold, payout, released, refunded);
    } else if e.RefundWrites? && e.call in r.refunds {
      RefundWritesKeeps(r, id, e.call, hold, payout, released, refunded);
    } else {
      OtherEventsKeep(r, id, e, hold, payout, released, refunded);
    }
  }

  lemma Grouped(a: set<Time>, b: set<Time>, c: set<Time>)
    ensures a + b + c == a + (b + c)
  {
  }

  lemma {:induction false} RaceKeeps(r: Race, id: OrderId, run: seq<Event>, hold: LedgerRow, payout: Kobo,
                                     released: set<Time>, refunded: set<Time>)
    requires id in r.store.orders && RaceInv(r, id, hold, payout, released, refunded)
    ensures RaceInv(RunRace(r, id, run), id, hold, payout,
                    released + ReleaseTimes(r, id, run), refunded + RefundTimes(r, id, run))
    decreases run
  {
    if run == [] {
      assert released + {} == released && refunded + {} == refunded;
    } else {
      var t := RaceStep(r, id, run[0]);
      EventKeeps(r, id, run[0], hold, payout, released, refunded);
      RaceKeeps(t, id, run[1..], hold, payout, released + ReleaseTime(r, run[0]), refunded + RefundTime(r, run[0]));
      Grouped(released, ReleaseTime(r, run[0]), ReleaseTimes(t, id, run[1..]));
      Grouped(refunded, RefundTime(r, run[0]), RefundTimes(t, id, run[1..]));
    }
  }

  // ----------------------------------------------------------- the theorems

  // The order is delivered, its hold is there, and nobody has acted yet.
  ghost predicate Awaited(s: Store, id: OrderId) {
    Reachable(s) && id in s.orders && s.orders[id].status == Delivered && s.orders[id].escrow == Holding
  }

  lemma StartInv(s: Store, id: OrderId)
    requires Awaited(s, id)
    ensures |Rows(s.ledger, id)| == 1
    ensures RaceInv(Start(s), id, Rows(s.ledger, id)[0], s.orders[id].sellerPayout, {}, {})
  {
    ReachableInv(s);
    assert CaseInv(CaseOf(s, id), s.now);
    Conservation.RowsSettledOnce(Rows(s.ledger, id));
    Conservation.Tally(Rows(s.ledger, id), PlatformFee);
    Conservation.Tally(Rows(s.ledger, id), LedgerKind.Refund);
    forall t
      ensures !RefTaken(s.ledger, FeeFor(id, t)) && !RefTaken(s.ledger, ReleaseOf(id, t))
      ensures !RefTaken(s.ledger, RefundOf(id, t))
    {
      HeldRefsAreFree(s, id, FeeFor(id, t));
      HeldRefsAreFree(s, id, ReleaseOf(id, t));
      HeldRefsAreFree(s, id, RefundOf(id, t));
    }
  }

  // What the totals say of `n` releases and `m` refunds, each for the whole hold.
  predicate Settlements(t: Totals, n: nat, m: nat, payout: Kobo, held: Kobo) {
    && t.releases == t.fees == n && t.refunds == m
    && t.releaseSum == n * payout && t.refundSum == m * held
    && t.releaseSum + t.feeSum + t.refundSum == (n + m) * held
  }

  lemma ExpectedAddsUp(n: nat, m: nat, payout: Kobo, held: Kobo)
    ensures Settlements(Expected(n, m, payout, held), n, m, payout, held)
  {
    TimesIsProduct(n, payout);
    TimesIsProduct(n, held - payout);
    TimesIsProduct(m, held);
    assert n * (held - payout) == n * held - n * payout;
    assert (n + m) * held == n * held + m * held;
  }

  lemma HoldSum(s: Store, id: OrderId)
    requires Awaited(s, id)
    ensures |Rows(s.ledger, id)| == 1 && Escrow.SumOf(Rows(s.ledger, id), EscrowHold) == Rows(s.ledger, id)[0].amount
  {
    ReachableInv(s);
    assert CaseInv(CaseOf(s, id), s.now);
    Conservation.RowsSettledOnce(Rows(s.ledger, id));
  }

  lemma RaceTotals(r: Race, id: OrderId, run: seq<Event>, hold: LedgerRow, payout: Kobo)
    requires id in r.store.orders && RaceInv(r, id, hold, payout, {}, {})
    ensures TotalsOf(Rows(RunRace(r, id, run).store.ledger, id)) ==
            Expected(|ReleaseTimes(r, id, run)|, |RefundTimes(r, id, run)|, payout, hold.amount)
  {
    RaceKeeps(r, id, run, hold, payout, {}, {});
    assert {} + ReleaseTimes(r, id, run) == ReleaseTimes(r, id, run);
    assert {} + RefundTimes(r, id, run) == RefundTimes(r, id, run);
  }

  /** Any number of releases, refunds and disputes of one delivered order, interleaved in any
      way between reading and writing: there is one FULL_RELEASE with its PLATFORM_FEE for
      each distinct millisecond in which a release that gets to write had read the clock,
      and one REFUND for each such millisecond of a refund. Each of them gives away the
      whole hold, and the index on references is all that limits them. */
  lemma OneSettlementPerReadingTime(s: Store, id: OrderId, run: seq<Event>)
    requires Awaited(s, id)
    ensures
      var rows, held := Rows(RunRace(Start(s), id, run).store.ledger, id), Escrow.SumOf(Rows(s.ledger, id), EscrowHold);
      Settlements(TotalsOf(rows), |ReleaseTimes(Start(s), id, run)|, |RefundTimes(Start(s), id, run)|,
                  s.orders[id].sellerPayout, held)
  {
    StartInv(s, id);
    HoldSum(s, id);
    var payout, held := s.orders[id].sellerPayout, Escrow.SumOf(Rows(s.ledger, id), EscrowHold);
    RaceTotals(Start(s), id, run, Rows(s.ledger, id)[0], payout);
    ExpectedAddsUp(|ReleaseTimes(Start(s), id, run)|, |RefundTimes(Start(s), id, run)|, payout, held);
  }
}
