/** What any command can do to one payment record. */
module PaymentRecords {
  import opened Types
  import opened Tables
  import opened OrderStateMachine
  import opened Protocol
  import Metadata
  import Payments
  import Webhook

  function RecordOf(s: Store, reference: PaymentRef): Option<Payment> {
    if reference in s.payments then Some(s.payments[reference]) else None
  }

  // A record is opened for the order's total, fails, or succeeds; it keeps its order, and a success is final.
  predicate RecordStep(s: Store, before: Option<Payment>, after: Option<Payment>) {
    || after == before
    || (before.None? && after.Some? && after.value.state.PaymentPending?
        && after.value.orderId in s.orders && s.orders[after.value.orderId].status == AwaitingPayment
        && after.value.amount == s.orders[after.value.orderId].total)
    || (before.Some? && !before.value.state.PaymentSuccess?
        && after == Some(before.value.(state := PaymentFailed)))
    || (after.Some? && after.value.state.PaymentSuccess? && after.value.verifiedAt.Some?
        && after.value.orderId in s.orders && (before.Some? ==> before.value.orderId == after.value.orderId))
  }

  lemma DeliveryMovesRecord(s: Store, charged: PaymentRef, metadata: Metadata.PaymentMetadata,
                            v: Webhook.Verification, oneKoboOver: bool, schedulingWorks: bool, reference: PaymentRef)
    ensures
      var t := Webhook.AfterCharge(s, charged, metadata, v, oneKoboOver, schedulingWorks);
      RecordStep(s, RecordOf(s, reference), RecordOf(t, reference))
  {
  }

  lemma ChargeMovesRecord(s: Store, c: Command, reference: PaymentRef)
    requires c.ChargeSuccess?
    ensures RecordStep(s, RecordOf(s, reference), RecordOf(Step(s, c), reference))
  {
    ChargeStep(s, c);
    DeliveryMovesRecord(s, c.reference, c.metadata, c.v, c.oneKoboOver, c.schedulingWorks, reference);
  }

  lemma OnlyPaymentCommandsTouchRecords(s: Store, c: Command)
    requires !PaymentCommand(c)
    ensures Step(s, c).payments == s.payments
  {
  }

  lemma RecordsMove(s: Store, c: Command, reference: PaymentRef)
    ensures RecordStep(s, RecordOf(s, reference), RecordOf(Step(s, c), reference))
  {
    if c.ChargeSuccess? {
      ChargeMovesRecord(s, c, reference);
    } else if c.VerifyByReference? && Payments.Confirms(s, c.reference, c.v) {
      Payments.PollingHoldDeclines(s, c.reference, c.v, c.oneKoboOver);
    } else if !PaymentCommand(c) {
      OnlyPaymentCommandsTouchRecords(s, c);
    }
  }
}
