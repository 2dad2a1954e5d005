/** Replaying the audit log: the ledger rows that each audit row stands for. */
module AuditLog {
  import opened Types

  // Release rows carry the fee in their metadata; its row was written just before.
  function Describes(row: AuditRow): seq<LedgerRow> {
    match row.action
    case HoldAction =>
      [LedgerRow(row.orderId, EscrowHold, row.amount, row.reference,
                 if row.metadata.HoldMetadata? then row.metadata.paystackRef else None)]
    case ReleaseAction(_) =>
      var at := if row.reference.ReleaseOf? then row.reference.at else 0;
      var fee := if row.metadata.ReleaseMetadata? then row.metadata.platformFee else 0;
      [LedgerRow(row.orderId, PlatformFee, fee, FeeFor(row.orderId, at), None)]
      + [LedgerRow(row.orderId, FullRelease, row.amount, row.reference, None)]
    case RefundAction => [LedgerRow(row.orderId, LedgerKind.Refund, row.amount, row.reference, None)]
  }

  function Replay(audit: seq<AuditRow>): seq<LedgerRow> {
    if audit == [] then []
    else Replay(audit[..|audit| - 1]) + Describes(audit[|audit| - 1])
  }

  lemma ReplaySnoc(audit: seq<AuditRow>, row: AuditRow)
    ensures Replay(audit + [row]) == Replay(audit) + Describes(row)
  {
    assert (audit + [row])[..|audit|] == audit;
  }
}
