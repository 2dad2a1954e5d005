/** An open dispute against releases, and what the auto-release worker makes of refusals. */
module Blocking {
  import opened Types
  import opened Tables
  import opened OrderStateMachine
  import opened Protocol
  import opened OrderCases
  import opened Invariant
  import opened Safety
  import opened AutoRelease
  import Escrow
  import Payments

  predicate ReleaseAttempt(c: Command, id: OrderId) {
    (c.AutoReleaseJob? && c.id == id) || (c.AdminRelease? && c.id == id)
    || (c.UpdateStatus? && c.id == id && c.next == Completed)
  }

  /** While the order is DISPUTED nothing releases it, in any state of the tables at all:
      not the buyer, not an administrator, not a left-over job. */
  lemma DisputeBlocksRelease(s: Store, c: Command, id: OrderId)
    requires id in s.orders && s.orders[id].status == OrderStatus.Disputed && ReleaseAttempt(c, id)
    ensures Step(s, c).ledger == s.ledger && Step(s, c).audit == s.audit
  {
    assert Escrow.ReleaseVerdict(s, id).NotReleasable?;
  }

  lemma BlockedStep(s: Store, c: Command, id: OrderId)
    requires CasesInv(s) && id in s.orders && ReleaseAttempt(c, id)
    requires s.orders[id].status in {OrderStatus.Disputed, Completed}
    ensures Step(s, c).ledger == s.ledger && Step(s, c).audit == s.audit
    ensures id in Step(s, c).orders && Step(s, c).orders[id].status in {OrderStatus.Disputed, Completed}
  {
    SettledFromHeld(s, id);
  }

  /** And no sequence of attempts gets round it: an administrator's status change to
      COMPLETED closes the disputed order without opening it to a later release. */
  lemma {:induction false} DisputeBlocksAttempts(s: Store, attempts: seq<Command>, id: OrderId)
    requires Inv(s) && id in s.orders && s.orders[id].status in {OrderStatus.Disputed, Completed}
    requires forall i :: 0 <= i < |attempts| ==> ReleaseAttempt(attempts[i], id)
    ensures Run(s, attempts).ledger == s.ledger && Run(s, attempts).audit == s.audit
    decreases attempts
  {
    if attempts != [] {
      BlockedStep(s, attempts[0], id);
      OrderlyKeepsInv(s, attempts[0]);
      DisputeBlocksAttempts(Step(s, attempts[0]), attempts[1..], id);
    }
  }

  // ---------------------------------------------------------- skip or retry

  lemma IncludesMiddle(before: string, part: string, after: string)
    ensures Includes(before + part + after, part)
  {
    assert OccursAt(before + part + after, part, |before|);
  }

  lemma SkipBecauseOf(message: string, before: string, k: nat, after: string)
    requires k < |SKIP_PHRASES| && message == before + SKIP_PHRASES[k] + after
    ensures IsSafeSkip(message)
  {
    IncludesMiddle(before, SKIP_PHRASES[k], after);
  }

  lemma RefusalIsSkipped(id: OrderId, outcome: Escrow.ReleaseOutcome)
    requires !outcome.ReleaseDone? && !outcome.ReleaseNoOrder?
    requires outcome.Frozen? ==> outcome.escrow in {EscrowStatus.Refunded, EscrowStatus.Disputed}
    ensures IsSafeSkip(ErrorMessage(id, outcome))
  {
    var message := ErrorMessage(id, outcome);
    match outcome
    case NotReleasable(status) =>
      SkipBecauseOf(message, "Release only allowed on DELIVERED or ", 3, " orders. Current: " + StatusName(status));
    case AlreadyReleased => SkipBecauseOf(message, "Escrow for order " + id + " has ", 0, "");
    case Frozen(escrow) =>
      SkipBecauseOf(message, "Cannot release \U{2014} escrow status is ", if escrow.Disputed? then 4 else 6, "");
    case ReleaseNoHold => SkipBecauseOf(message, "", 2, " for order " + id);
  }

  // An id such as a cuid: no space and no upper-case letter.
  predicate PlainId(id: OrderId) {
    forall i :: 0 <= i < |id| ==> id[i] != ' ' && !('A' <= id[i] <= 'Z')
  }

  // The letters of "Order <id> not found" that matter to the phrases.
  predicate OrderNotFound(message: string, n: nat) {
    && |message| == n + 16 && message[0] == 'O' && message[7 + n] == 'n' && message[11 + n] == 'f'
    && (forall j :: 0 <= j < |message| && message[j] == ' ' ==> j == 5 || j == 6 + n || j == 10 + n)
    && (forall j :: 0 < j < |message| ==> !('A' <= message[j] <= 'Z'))
  }

  lemma NoPhraseFits(message: string, n: nat, k: nat, i: nat)
    requires OrderNotFound(message, n) && k < |SKIP_PHRASES|
    ensures !OccursAt(message, SKIP_PHRASES[k], i)
  {
    var phrase := SKIP_PHRASES[k];
    if i + |phrase| <= |message| {
      var part := message[i..i + |phrase|];
      if k <= 1 {
        assert phrase[7] == ' ' && (if k == 0 then phrase[12] == ' ' else phrase[8] == 'r');
        assert part[7] == message[i + 7] && part[8] == message[i + 8] && part[12] == message[i + 12];
      } else {
        assert 'A' <= phrase[0] <= 'Z' && phrase[0] != 'O';
        assert part[0] == message[i];
      }
    }
  }

  lemma MissingOrderIsRetried(id: OrderId)
    requires PlainId(id)
    ensures !IsSafeSkip(ErrorMessage(id, Escrow.ReleaseNoOrder))
  {
    var message := ErrorMessage(id, Escrow.ReleaseNoOrder);
    forall k, i: nat | 0 <= k < |SKIP_PHRASES|
      ensures !OccursAt(message, SKIP_PHRASES[k], i)
    {
      NoPhraseFits(message, |id|, k, i);
    }
  }

  /** The worker swallows exactly the refusals of releaseFunds. On an existing order, of
      whatever id, every refusal is a skip; a job for an order that does not exist is
      retried, for every id made like the database makes them. */
  lemma WorkerClassifiesRefusals(s: Store, id: OrderId)
    ensures id in s.orders ==>
      JobVerdict(s, id) == (if Escrow.ReleaseVerdict(s, id).ReleaseDone? then JobReleased else JobSkipped)
    ensures id !in s.orders && PlainId(id) ==> JobVerdict(s, id) == JobRetried
  {
    var outcome := Escrow.ReleaseVerdict(s, id);
    if id in s.orders && !outcome.ReleaseDone? {
      RefusalIsSkipped(id, outcome);
    } else if id !in s.orders && PlainId(id) {
      MissingOrderIsRetried(id);
    }
  }

  lemma {:induction false} FirstHoldStays(rows: seq<LedgerRow>, row: LedgerRow)
    requires FirstHold(rows).Some?
    ensures FirstHold(rows + [row]) == FirstHold(rows)
  {
    assert (rows + [row])[0] == rows[0];
    if !rows[0].kind.EscrowHold? {
      FirstHoldStays(rows[1..], row);
      assert (rows + [row])[1..] == rows[1..] + [row];
    }
  }

  lemma SpentInCase(id: OrderId, c: Case, d: Case, now: Time)
    requires CaseStep(id, c, d, now) && FirstHold(c.rows).Some? && !c.job
    ensures FirstHold(d.rows).Some? && !d.job
  {
    if ReleasedStep(id, c, d, now) {
      var fee := Escrow.FeeRow(c.order, FirstHold(c.rows).value, id, now);
      FirstHoldStays(c.rows, fee);
      FirstHoldStays(c.rows + [fee], Escrow.ReleaseRow(c.order, id, now));
    } else if RefundedStep(id, c, d, now) {
      FirstHoldStays(c.rows, Escrow.RefundRow(FirstHold(c.rows).value, id, now));
    }
  }

  lemma SpentStep(s: Store, c: Command, id: OrderId)
    requires id in s.orders && FindHold(s.ledger, id).Some? && id !in s.jobs
    ensures var t := Step(s, c); id in t.orders && FindHold(t.ledger, id).Some? && id !in t.jobs
  {
    if Orderly(s, c) {
      OrderlyCommandsRefine(s, c, id);
      SpentInCase(id, CaseOf(s, id), CaseOf(Step(s, c), id), s.now);
    } else if c.VerifyByReference? {
      Payments.PollingHoldDeclines(s, c.reference, c.v, c.oneKoboOver);
    }
  }

  lemma {:induction false} SpentForGood(s: Store, run: seq<Command>, id: OrderId)
    requires id in s.orders && FindHold(s.ledger, id).Some? && id !in s.jobs
    ensures id !in Run(s, run).jobs
    decreases run
  {
    if run != [] {
      SpentStep(s, run[0], id);
      SpentForGood(Step(s, run[0]), run[1..], id);
    }
  }

  /** A job that fires before delivery is spent: the order stays funded, and nothing that
      happens afterwards, orderly or not, schedules its automatic release again. */
  lemma EarlyJobIsSpent(s: Store, id: OrderId, run: seq<Command>)
    requires id in s.orders && s.orders[id].status in {Paid, Shipped, InTransit}
    ensures Step(s, AutoReleaseJob(id)) == s.(jobs := s.jobs - {id})
    ensures FindHold(s.ledger, id).Some? ==> id !in Run(Step(s, AutoReleaseJob(id)), run).jobs
  {
    WorkerClassifiesRefusals(s, id);
    if FindHold(s.ledger, id).Some? {
      SpentForGood(Step(s, AutoReleaseJob(id)), run, id);
    }
  }
}
