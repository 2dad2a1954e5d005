/** The auto-release job of a funded order: it is there until it is used, and using it pays the seller. */
module Scheduling {
  import opened Types
  import opened Tables
  import opened OrderStateMachine
  import opened Protocol
  import opened OrderCases
  import opened Invariant
  import opened Safety
  import AutoRelease
  import Blocking
  import Metadata
  import Webhook
  import Escrow
  import Payments

  predicate Underway(order: Order) {
    order.escrow == Holding && order.status in {Paid, Shipped, InTransit, Delivered}
  }

  predicate Scheduled(s: Store, id: OrderId) {
    id in s.orders && Underway(s.orders[id]) ==> id in s.jobs
  }

  // The three ways of losing the job: it fires before delivery, or the queue fails when a
  // webhook or a manual hold has just funded the order.
  predicate Spends(s: Store, c: Command, id: OrderId) {
    && id in s.orders
    && ((c == AutoReleaseJob(id) && s.orders[id].escrow == Holding && s.orders[id].status in {Paid, Shipped, InTransit})
        || (c.ChargeSuccess? && !c.schedulingWorks && Metadata.ExtractedOrderId(c.metadata) == Some(id)
            && Webhook.ChargeVerdict(s, c.reference, c.metadata, c.v, c.oneKoboOver).Funded?)
        || (c.HoldFunds? && c.id == id && !c.queueWorks && HoldRequest(c)
            && Escrow.HoldVerdict(s, id, c.amount, c.holdRef, c.oneKoboOver).Held?))
  }

  predicate QueueWorksRun(s: Store, run: seq<Command>, id: OrderId)
    decreases run
  {
    run == [] || (!Spends(s, run[0], id) && QueueWorksRun(Step(s, run[0]), run[1..], id))
  }

  lemma ChargeSchedules(s: Store, c: Command, id: OrderId)
    requires c.ChargeSuccess? && !Spends(s, c, id) && id in s.orders && s.orders[id].escrow != Holding
    ensures var t := Step(s, c); id in t.orders && t.orders[id].escrow == Holding ==> id in t.jobs
  {
  }

  lemma HoldSchedules(s: Store, c: Command, id: OrderId)
    requires c.HoldFunds? && !Spends(s, c, id) && id in s.orders && s.orders[id].escrow != Holding
    ensures var t := EscrowStep(s, c); id in t.orders && t.orders[id].escrow == Holding ==> id in t.jobs
  {
  }

  // What no command but a funding one does to an order that is not HOLDING.
  predicate NoHolding(s: Store, t: Store, id: OrderId) {
    id in s.orders && id in t.orders && s.orders[id].escrow != Holding ==> t.orders[id].escrow != Holding
  }

  lemma OrderStepHoldsNothing(s: Store, c: Command, id: OrderId)
    requires OrderCommand(c)
    ensures NoHolding(s, OrderStep(s, c), id)
  {
  }

  lemma EscrowStepHoldsNothing(s: Store, c: Command, id: OrderId)
    requires EscrowCommand(c) && !c.HoldFunds?
    ensures NoHolding(s, EscrowStep(s, c), id)
  {
  }

  lemma OthersHoldNothing(s: Store, c: Command, id: OrderId)
    requires !OrderCommand(c) && !EscrowCommand(c) && !c.ChargeSuccess? && !c.VerifyByReference?
    ensures NoHolding(s, Step(s, c), id)
  {
  }

  // Escrow becomes HOLDING only together with a job.
  lemma HoldingIsScheduled(s: Store, c: Command, id: OrderId)
    requires id in s.orders && s.orders[id].escrow != Holding && !Spends(s, c, id)
    ensures var t := Step(s, c); id in t.orders && t.orders[id].escrow == Holding ==> id in t.jobs
  {
    if c.ChargeSuccess? {
      ChargeSchedules(s, c, id);
    } else if c.VerifyByReference? {
      PollStep(s, c);
      if Payments.Confirms(s, c.reference, c.v) {
        Payments.PollingHoldDeclines(s, c.reference, c.v, c.oneKoboOver);
      }
    } else if c.HoldFunds? {
      HoldSchedules(s, c, id);
    } else if OrderCommand(c) {
      OrderStepHoldsNothing(s, c, id);
    } else if EscrowCommand(c) {
      EscrowStepHoldsNothing(s, c, id);
    } else {
      OthersHoldNothing(s, c, id);
    }
  }

  // A job that is gone has fired, or its order is settled.
  predicate LeavesSettled(s: Store, t: Store, id: OrderId) {
    id in t.orders && id in s.jobs && id !in t.jobs ==> t.orders[id].escrow in {Released, EscrowStatus.Refunded}
  }

  lemma OrderStepLeaves(s: Store, c: Command, id: OrderId)
    requires OrderCommand(c)
    ensures LeavesSettled(s, OrderStep(s, c), id)
  {
  }

  lemma EscrowStepLeaves(s: Store, c: Command, id: OrderId)
    requires EscrowCommand(c) && c != AutoReleaseJob(id)
    ensures LeavesSettled(s, EscrowStep(s, c), id)
  {
  }

  lemma OthersLeaveJobs(s: Store, c: Command)
    requires !OrderCommand(c) && !EscrowCommand(c) && !c.VerifyByReference?
    ensures s.jobs <= Step(s, c).jobs
  {
  }

  lemma JobLeaves(s: Store, c: Command, id: OrderId)
    requires c != AutoReleaseJob(id)
    ensures LeavesSettled(s, Step(s, c), id)
  {
    if OrderCommand(c) {
      OrderStepLeaves(s, c, id);
    } else if EscrowCommand(c) {
      EscrowStepLeaves(s, c, id);
    } else if c.VerifyByReference? {
      PollStep(s, c);
      if Payments.Confirms(s, c.reference, c.v) {
        Payments.PollingHoldDeclines(s, c.reference, c.v, c.oneKoboOver);
      }
    } else {
      OthersLeaveJobs(s, c);
    }
  }

  lemma JobReleasesDelivered(s: Store, id: OrderId)
    requires CasesInv(s) && id in s.orders && s.orders[id].status == Delivered && s.orders[id].escrow == Holding
    ensures Escrow.ReleaseVerdict(s, id).ReleaseDone?
    ensures Step(s, AutoReleaseJob(id)) ==
            Escrow.AfterRelease(s, id, ByAutoRelease).(jobs := s.jobs - {id})
  {
    assert CaseInv(CaseOf(s, id), s.now);
  }

  // An order that is on its way after a step was so before, or has just been funded.
  lemma WasUnderway(id: OrderId, c: Case, d: Case, now: Time)
    requires CaseInv(c, now) && Rank(c.order.status) <= Rank(d.order.status)
    requires Underway(d.order) && c.order.escrow == Holding
    ensures Underway(c.order)
  {
  }

  lemma StaysScheduled(s: Store, c: Command, id: OrderId)
    requires CasesInv(s) && Orderly(s, c) && !Spends(s, c, id) && Scheduled(s, id) && id in s.orders
    ensures Scheduled(Step(s, c), id)
  {
    var t := Step(s, c);
    OrderFactsKept(s, c, id);
    if Underway(t.orders[id]) {
      if s.orders[id].escrow != Holding {
        HoldingIsScheduled(s, c, id);
      } else {
        WasUnderway(id, CaseOf(s, id), CaseOf(t, id), s.now);
        if c == AutoReleaseJob(id) {
          JobReleasesDelivered(s, id);
        } else {
          JobLeaves(s, c, id);
        }
      }
    }
  }

  lemma EarlyJobSpends(s: Store, id: OrderId)
    requires id in s.orders && s.orders[id].escrow == Holding && s.orders[id].status in {Paid, Shipped, InTransit}
    ensures !Scheduled(Step(s, AutoReleaseJob(id)), id)
  {
    Blocking.WorkerClassifiesRefusals(s, id);
  }

  lemma RefusedJobSpends(s: Store, c: Command, id: OrderId)
    requires CasesInv(s) && c.ChargeSuccess? && Spends(s, c, id)
    ensures !Scheduled(Step(s, c), id)
  {
    FundedMeans(s, c.reference, c.metadata, c.v, c.oneKoboOver);
    assert CaseInv(CaseOf(s, id), s.now);
    assert id !in s.jobs;
  }

  lemma RefusedHoldSpends(s: Store, c: Command, id: OrderId)
    requires CasesInv(s) && c.HoldFunds? && Spends(s, c, id)
    ensures !Scheduled(EscrowStep(s, c), id)
  {
    assert CaseInv(CaseOf(s, id), s.now);
  }

  /** The exact condition: the job of an order is in the queue after a command, if it was
      before, if and only if the command is not one of those three. */
  lemma ScheduledIffNotSpent(s: Store, c: Command, id: OrderId)
    requires CasesInv(s) && Orderly(s, c) && Scheduled(s, id) && id in s.orders
    ensures Scheduled(Step(s, c), id) <==> !Spends(s, c, id)
  {
    if !Spends(s, c, id) {
      StaysScheduled(s, c, id);
    } else if c.ChargeSuccess? {
      RefusedJobSpends(s, c, id);
    } else if c.HoldFunds? {
      RefusedHoldSpends(s, c, id);
    } else {
      EarlyJobSpends(s, id);
    }
  }

  // The job is in the queue, when it is due, in every state of the run.
  predicate ScheduledThroughout(s: Store, run: seq<Command>, id: OrderId)
    decreases run
  {
    Scheduled(s, id) && (run == [] || ScheduledThroughout(Step(s, run[0]), run[1..], id))
  }

  lemma {:induction false} ScheduledThroughoutIff(s: Store, run: seq<Command>, id: OrderId)
    requires Inv(s) && OrderlyRun(s, run) && Scheduled(s, id)
    ensures ScheduledThroughout(s, run, id) <==> QueueWorksRun(s, run, id)
    decreases run
  {
    if run != [] {
      var t := Step(s, run[0]);
      OrderlyKeepsInv(s, run[0]);
      if id in s.orders {
        ScheduledIffNotSpent(s, run[0], id);
      } else if id in t.orders {
        OrdersOnlyAppear(s, run[0]);
      }
      if Scheduled(t, id) {
        ScheduledThroughoutIff(t, run[1..], id);
      }
    }
  }

  lemma {:induction false} ThroughoutAtEnd(s: Store, run: seq<Command>, id: OrderId)
    requires ScheduledThroughout(s, run, id)
    ensures Scheduled(Run(s, run), id)
    decreases run
  {
    if run != [] {
      ThroughoutAtEnd(Step(s, run[0]), run[1..], id);
    }
  }

  /** For whole histories: a held, undisputed order has its job in every state of an orderly
      run if and only if no job fires before delivery and the queue takes every job it is given. */
  lemma JobIsThereIff(run: seq<Command>, id: OrderId)
    requires OrderlyRun(EMPTY, run)
    ensures ScheduledThroughout(EMPTY, run, id) <==> QueueWorksRun(EMPTY, run, id)
  {
    assert Inv(EMPTY);
    ScheduledThroughoutIff(EMPTY, run, id);
  }

  /** However an order was funded, its job is in the queue as long as the money is held
      and no dispute is open; and if nobody has acted when the job fires on the delivered
      order, the seller's payout is released and the worker reports success. */
  lemma DeliveredOrderIsPaidOutByItsJob(run: seq<Command>, id: OrderId)
    requires OrderlyRun(EMPTY, run) && QueueWorksRun(EMPTY, run, id)
    requires id in Run(EMPTY, run).orders && Underway(Run(EMPTY, run).orders[id])
    ensures id in Run(EMPTY, run).jobs
    ensures
      var s := Run(EMPTY, run);
      var t := Step(s, AutoReleaseJob(id));
      s.orders[id].status == Delivered ==>
        && AutoRelease.JobVerdict(s, id) == AutoRelease.JobReleased
        && id in t.orders && PayoutReady(t.orders[id]) && id !in t.jobs
        && PaidOut(t.orders[id], Rows(t.ledger, id))
  {
    var s := Run(EMPTY, run);
    JobIsThereIff(run, id);
    ThroughoutAtEnd(EMPTY, run, id);
    assert Inv(EMPTY);
    InvAlongRun(EMPTY, run);
    if s.orders[id].status == Delivered {
      JobPaysOut(s, id);
    }
  }

  lemma JobPaysOut(s: Store, id: OrderId)
    requires CasesInv(s) && id in s.orders && s.orders[id].status == Delivered && s.orders[id].escrow == Holding
    ensures
      var t := Step(s, AutoReleaseJob(id));
      && AutoRelease.JobVerdict(s, id) == AutoRelease.JobReleased
      && id in t.orders && PayoutReady(t.orders[id]) && id !in t.jobs
      && PaidOut(t.orders[id], Rows(t.ledger, id))
  {
    JobReleasesDelivered(s, id);
    SettledFromHeld(s, id);
    ReleaseRefines(s, id, ByAutoRelease, id);
  }
}
