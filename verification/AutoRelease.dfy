/** escrow.processor.ts: the worker that fires auto-release jobs, and which failures it swallows. */
module AutoRelease {
  import opened Types
  import opened Tables
  import Escrow

  function StatusName(status: OrderStatus): string {
    match status
    case Draft => "DRAFT"
    case PendingBuyer => "PENDING_BUYER"
    case AwaitingPayment => "AWAITING_PAYMENT"
    case Paid => "PAID"
    case Shipped => "SHIPPED"
    case InTransit => "IN_TRANSIT"
    case Delivered => "DELIVERED"
    case Completed => "COMPLETED"
    case Disputed => "DISPUTED"
    case Cancelled => "CANCELLED"
    case Refunded => "REFUNDED"
  }

  function EscrowName(escrow: EscrowStatus): string {
    match escrow
    case Pending => "PENDING"
    case Holding => "HOLDING"
    case PartiallyReleased => "PARTIALLY_RELEASED"
    case Released => "RELEASED"
    case Refunded => "REFUNDED"
    case Disputed => "DISPUTED"
  }

  // The texts releaseFunds throws, each cut where the worker's phrases begin and end.
  function ErrorMessage(id: OrderId, outcome: Escrow.ReleaseOutcome): string
    requires !outcome.ReleaseDone?
  {
    match outcome
    case ReleaseNoOrder => "Order " + id + " not found"
    case NotReleasable(status) =>
      "Release only allowed on DELIVERED or " + "COMPLETED" + (" orders. Current: " + StatusName(status))
    case AlreadyReleased => ("Escrow for order " + id + " has ") + "already been released" + ""
    case Frozen(escrow) => "Cannot release \U{2014} escrow status is " + EscrowName(escrow) + ""
    case ReleaseNoHold => "" + "No active escrow hold found" + (" for order " + id)
  }

  predicate OccursAt(text: string, part: string, i: nat) {
    i + |part| <= |text| && text[i..i + |part|] == part
  }

  // String.prototype.includes
  predicate Includes(text: string, part: string) {
    exists i :: 0 <= i <= |text| && OccursAt(text, part, i)
  }

  const SKIP_PHRASES := [
    "already been released", "already released", "No active escrow hold found",
    "COMPLETED", "DISPUTED", "CANCELLED", "REFUNDED"]

  predicate IsSafeSkip(message: string) {
    exists k :: 0 <= k < |SKIP_PHRASES| && Includes(message, SKIP_PHRASES[k])
  }

  datatype JobOutcome = JobReleased | JobSkipped | JobRetried

  function JobVerdict(s: Store, id: OrderId): JobOutcome {
    var outcome := Escrow.ReleaseVerdict(s, id);
    if outcome.ReleaseDone? then JobReleased
    else if IsSafeSkip(ErrorMessage(id, outcome)) then JobSkipped
    else JobRetried
  }

  // A job that did not throw is complete and leaves the queue.
  function AfterAutoRelease(s: Store, id: OrderId): (t: Store)
    ensures SameFrame(s, t)
  {
    var released := Escrow.AfterRelease(s, id, ByAutoRelease);
    if JobVerdict(s, id).JobRetried? then released else released.(jobs := released.jobs - {id})
  }

  class EscrowProcessor {
    const db: Database
    const escrow: Escrow.EscrowService

    constructor (db: Database, escrow: Escrow.EscrowService)
      requires escrow.db == db
      ensures this.db == db && this.escrow == escrow
    {
      this.db, this.escrow := db, escrow;
    }

    method HandleAutoRelease(id: OrderId) returns (r: JobOutcome)
      requires escrow.db == db
      modifies db
      ensures r == JobVerdict(old(db.State()), id)
      ensures db.State() == AfterAutoRelease(old(db.State()), id)
    {
      var outcome := escrow.ReleaseFunds(id, ByAutoRelease);
      if !outcome.ReleaseDone? && !IsSafeSkip(ErrorMessage(id, outcome)) {
        return JobRetried;   // rethrown: the queue tries again
      }
      db.jobs := db.jobs - {id};
      return if outcome.ReleaseDone? then JobReleased else JobSkipped;
    }
  }
}
