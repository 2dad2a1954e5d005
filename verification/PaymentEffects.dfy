/** What each payment command leaves in the tables, field by field, and when it leaves anything. */
module PaymentEffects {
  import opened Types
  import opened Tables
  import opened Protocol
  import opened Metadata
  import opened Webhook
  import opened EscrowEffects
  import Escrow
  import Money
  import Payments

  // ---------------------------------------------------------- initiatePayment

  predicate MayPay(s: Store, id: OrderId, user: User) {
    && id in s.orders && s.orders[id].status == AwaitingPayment
    && (s.orders[id].buyer == Some(user.id) || (s.orders[id].buyer == None && s.orders[id].buyerEmail == user.email))
    && (forall r :: r in s.payments && s.payments[r].orderId == id ==> s.payments[r].state != PaymentSuccess)
  }

  /** A payment is opened, PENDING and for the order's total, if and only if the order awaits
      payment, the user is its buyer or, while it has none, owns its e-mail address, no
      payment of it has succeeded, Paystack accepts and the reference is new. */
  lemma InitiateExactly(s: Store, id: OrderId, user: User, reference: PaymentRef, gatewayWorks: bool)
    ensures
      Step(s, InitiatePayment(id, user, reference, gatewayWorks)) ==
      if MayPay(s, id, user) && gatewayWorks && reference !in s.payments
      then s.(payments := s.payments[reference := Payment(id, s.orders[id].total, PaymentPending, None)])
      else s
  {
  }

  lemma InitiateAnswer(s: Store, id: OrderId, user: User, reference: PaymentRef, gatewayWorks: bool)
    ensures match Payments.InitiateVerdict(s, id, user, reference, gatewayWorks)
      case InitiateNoOrder => id !in s.orders
      case InitiateNotAwaiting(status) =>
        id in s.orders && status == s.orders[id].status && status != AwaitingPayment
      case NotTheBuyer =>
        && id in s.orders && s.orders[id].status == AwaitingPayment
        && s.orders[id].buyer != None && s.orders[id].buyer != Some(user.id)
      case WrongEmail =>
        && id in s.orders && s.orders[id].status == AwaitingPayment
        && s.orders[id].buyer == None && s.orders[id].buyerEmail != user.email
      case AlreadyPaid =>
        && id in s.orders && s.orders[id].status == AwaitingPayment
        && (s.orders[id].buyer == Some(user.id)
            || (s.orders[id].buyer == None && s.orders[id].buyerEmail == user.email))
        && exists r :: r in s.payments && s.payments[r].orderId == id && s.payments[r].state == PaymentSuccess
      case GatewayFailed => MayPay(s, id, user) && !gatewayWorks
      case ReferenceInUse => MayPay(s, id, user) && gatewayWorks && reference in s.payments
      case Initiated => MayPay(s, id, user) && gatewayWorks && reference !in s.payments
  {
  }

  // --------------------------------------------------------- verifyByReference

  // A recorded success whose order still awaits payment.
  predicate NeedsRepair(s: Store, reference: PaymentRef) {
    && reference in s.payments && s.payments[reference].state == PaymentSuccess
    && s.payments[reference].orderId in s.orders
    && s.orders[s.payments[reference].orderId].status == AwaitingPayment
  }

  // Paystack says that an open payment succeeded, and gives a date or null.
  predicate NowSucceeds(s: Store, reference: PaymentRef, v: Verification) {
    && reference in s.payments && s.payments[reference].state != PaymentSuccess
    && s.payments[reference].orderId in s.orders
    && v.status == "success" && v.paidAt != NoDate
  }

  /** A poll changes the tables in two cases only. A recorded success whose order still
      awaits payment makes the order PAID as of the recorded time. An open payment that
      Paystack reports successful becomes SUCCESS, and its order PAID, as of the time
      reported, which is the start of 1970 for null. No ledger row is ever written. */
  lemma VerifyExactly(s: Store, reference: PaymentRef, v: Verification, oneKoboOver: bool)
    ensures
      var t := Step(s, VerifyByReference(reference, v, oneKoboOver));
      if NeedsRepair(s, reference) then
        var record := s.payments[reference];
        var order := s.orders[record.orderId];
        var time := if record.verifiedAt == None then s.now else record.verifiedAt.value;
        t == s.(orders := s.orders[record.orderId := order.(
               status := Paid, stamps := order.stamps.(paid := Some(time)))])
      else if NowSucceeds(s, reference, v) then
        var record := s.payments[reference];
        var order := s.orders[record.orderId];
        var time := if v.paidAt == NullDate then 0 else v.paidAt.time;
        t == s.(payments := s.payments[reference := record.(state := PaymentSuccess, verifiedAt := Some(time))],
                orders := s.orders[record.orderId := order.(
                  status := Paid, stamps := order.stamps.(paid := Some(time)))])
      else t == s
  {
    PollStep(s, VerifyByReference(reference, v, oneKoboOver));
    if Payments.Confirms(s, reference, v) {
      Payments.PollingHoldDeclines(s, reference, v, oneKoboOver);
    }
  }

  lemma VerifyAnswer(s: Store, reference: PaymentRef, v: Verification, oneKoboOver: bool)
    ensures match Payments.VerifyVerdict(s, reference, v, oneKoboOver)
      case AlreadyVerified => reference in s.payments && s.payments[reference].state == PaymentSuccess
      case NothingToDo =>
        reference !in s.payments || (s.payments[reference].state != PaymentSuccess && v.status != "success")
      case VerifyFailed =>
        && reference in s.payments && s.payments[reference].state != PaymentSuccess && v.status == "success"
        && (v.paidAt == NoDate || s.payments[reference].orderId !in s.orders)
      case MarkedPaid(hold) => NowSucceeds(s, reference, v) && hold == Escrow.HoldNotAwaiting(Paid)
  {
    if Payments.Confirms(s, reference, v) {
      Payments.PollingHoldDeclines(s, reference, v, oneKoboOver);
    }
  }

  // ------------------------------------------------------------ charge.success

  // Paystack confirms that the delivery's payment, in naira and with a date, is for order
  // `id`, which exists; and its reference is not recorded for another order.
  predicate Genuine(s: Store, c: Command, id: OrderId) {
    && c.ChargeSuccess?
    && c.v.status == "success" && c.v.reference == c.reference
    && ExtractedOrderId(c.metadata) == Some(id) && ExtractedOrderId(c.v.metadata) == Some(id)
    && c.v.amount > 0 && c.v.currency == "NGN" && c.v.paidAt.At?
    && id in s.orders && s.orders[id].total > 0
    && (c.reference in s.payments ==> s.payments[c.reference].orderId == id)
  }

  // The order can still take the money.
  predicate Fundable(s: Store, c: Command, id: OrderId)
    requires Genuine(s, c, id)
  {
    && AmountPasses(c.v.amount, s.orders[id].total, c.oneKoboOver)
    && HoldFrom(s.ledger, id).None?
    && s.orders[id].status in {AwaitingPayment, Paid} && s.orders[id].escrow in {EscrowStatus.Pending, Holding}
  }

  lemma AmountPassesIff(paid: Kobo, expected: Kobo, oneKoboOver: bool)
    ensures Money.AmountMismatch(paid, expected, oneKoboOver) <==> !AmountPasses(paid, expected, oneKoboOver)
  {
  }

  lemma GenuineIffScreened(s: Store, c: Command, id: OrderId)
    requires c.ChargeSuccess?
    ensures Genuine(s, c, id) <==>
      && Screening(s, c.reference, c.metadata, c.v).None? && ExtractedOrderId(c.metadata) == Some(id)
      && (c.reference in s.payments ==> s.payments[c.reference].orderId == id)
  {
  }

  /** What a genuine delivery leaves. A payment that cannot fund its order is only recorded;
      one whose hold reference is taken undoes even that; any other one funds the order,
      which keeps its payment time if it was PAID before. */
  lemma GenuineChargeExactly(s: Store, c: Command, id: OrderId)
    requires Genuine(s, c, id)
    ensures
      var order, time := s.orders[id], c.v.paidAt.time;
      var recorded := s.(payments := s.payments[c.reference := Payment(id, c.v.amount, PaymentSuccess, Some(time))]);
      Step(s, c) ==
      if !Fundable(s, c, id) then recorded
      else if !Unused(s.ledger, EscrowFor(c.reference)) then s
      else
        recorded.(
          ledger := s.ledger + [LedgerRow(id, EscrowHold, c.v.amount, EscrowFor(c.reference), Some(c.reference))],
          orders := s.orders[id := order.(status := Paid, escrow := Holding, stamps :=
            if order.status == Paid then order.stamps else order.stamps.(paid := Some(time)))],
          audit := s.audit + [AuditRow(id, HoldAction, EscrowStatus.Pending, Holding, c.v.amount,
                                       EscrowFor(c.reference), HoldMetadata(Some(c.reference)))],
          jobs := if c.schedulingWorks then s.jobs + {id} else s.jobs)
  {
    ChargeStep(s, c);
    GenuineIffScreened(s, c, id);
    AmountPassesIff(c.v.amount, s.orders[id].total, c.oneKoboOver);
    HoldIsFirst(s.ledger, id);
    GenuineVerdict(s, c, id);
    var order := s.orders[id];
    assert order.stamps.(paid := order.stamps.paid) == order.stamps;
  }

  lemma GenuineVerdict(s: Store, c: Command, id: OrderId)
    requires Genuine(s, c, id)
    ensures
      var verdict := ChargeVerdict(s, c.reference, c.metadata, c.v, c.oneKoboOver);
      && (verdict.Funded? <==> Fundable(s, c, id) && Unused(s.ledger, EscrowFor(c.reference)))
      && (verdict.HoldReferenceTaken? <==> Fundable(s, c, id) && !Unused(s.ledger, EscrowFor(c.reference)))
      && (!Fundable(s, c, id) ==> verdict.AmountMismatchRecorded? || verdict.ExistingHold? || verdict.Ineligible?)
  {
    GenuineIffScreened(s, c, id);
    AmountPassesIff(c.v.amount, s.orders[id].total, c.oneKoboOver);
    HoldIsFirst(s.ledger, id);
    TakenIffUsed(s.ledger, EscrowFor(c.reference));
    TerminalIff(s.orders[id].escrow);
  }

  lemma TerminalIff(escrow: EscrowStatus)
    ensures TerminalEscrow(escrow) <==> escrow != EscrowStatus.Pending && escrow != Holding
  {
  }

  lemma TakenIffUsed(ledger: seq<LedgerRow>, reference: LedgerRef)
    ensures RefTaken(ledger, reference) <==> !Unused(ledger, reference)
  {
  }

  /** A delivery that is not genuine for any order leaves nothing at all. */
  lemma OtherChargeChangesNothing(s: Store, c: Command)
    requires c.ChargeSuccess? && forall id :: !Genuine(s, c, id)
    ensures Step(s, c) == s
  {
    ChargeStep(s, c);
    if ExtractedOrderId(c.metadata).Some? {
      GenuineIffScreened(s, c, ExtractedOrderId(c.metadata).value);
    }
  }

  /** So a charge.success that changes any table is one that Paystack confirms: successful, of
      this reference, for the order that both sets of metadata name, in naira, dated. */
  lemma ChangesOnlyIfGenuine(s: Store, c: Command)
    requires c.ChargeSuccess?
    ensures Step(s, c) != s ==> exists id :: Genuine(s, c, id)
  {
    if forall id :: !Genuine(s, c, id) {
      OtherChargeChangesNothing(s, c);
    }
  }

  /** And a hold is written if and only if the delivery is genuine for an order that can take
      the money and its hold reference is free. */
  lemma HoldWrittenIff(s: Store, c: Command)
    requires c.ChargeSuccess?
    ensures Step(s, c).ledger != s.ledger <==>
      exists id :: Genuine(s, c, id) && Fundable(s, c, id) && Unused(s.ledger, EscrowFor(c.reference))
  {
    if exists id :: Genuine(s, c, id) {
      var id :| Genuine(s, c, id);
      GenuineChargeExactly(s, c, id);
      assert forall other :: Genuine(s, c, other) ==> other == id;
    } else {
      OtherChargeChangesNothing(s, c);
    }
  }

  /** Why a delivery came to what it came to: each reason is true of the delivery, its
      verification and the tables, and a funding one is genuine, fundable and new. */
  lemma ChargeAnswer(s: Store, c: Command)
    requires c.ChargeSuccess?
    ensures
      var named, v := ExtractedOrderId(c.metadata), c.v;
      match ChargeVerdict(s, c.reference, c.metadata, v, c.oneKoboOver)
      case NoOrderId => named == None
      case NotSuccessful => v.status != "success"
      case ReferenceMismatch => v.reference != c.reference
      case MetadataMismatch => ExtractedOrderId(v.metadata) != named
      case BadAmount => v.amount <= 0
      case BadCurrency => v.currency != "NGN"
      case NoTimestamp => !v.paidAt.At?
      case ChargeNoOrder => named != None && named.value !in s.orders
      case BadOrderTotal => named != None && named.value in s.orders && s.orders[named.value].total <= 0
      case ReferenceConflict(owner) =>
        c.reference in s.payments && owner == s.payments[c.reference].orderId && named != Some(owner)
      case AmountMismatchRecorded =>
        && named != None && Genuine(s, c, named.value)
        && !AmountPasses(v.amount, s.orders[named.value].total, c.oneKoboOver)
      case ExistingHold(samePayment) =>
        && named != None && Genuine(s, c, named.value) && HoldFrom(s.ledger, named.value).Some?
        && (samePayment <==>
              var hold := HoldFrom(s.ledger, named.value).value;
              hold.paystackRef == Some(c.reference) || hold.reference == EscrowFor(c.reference))
      case Ineligible(status, escrow) =>
        && named != None && Genuine(s, c, named.value) && HoldFrom(s.ledger, named.value).None?
        && status == s.orders[named.value].status && escrow == s.orders[named.value].escrow
        && (status !in {AwaitingPayment, Paid} || escrow !in {EscrowStatus.Pending, Holding})
      case HoldReferenceTaken =>
        named != None && Genuine(s, c, named.value) && !Unused(s.ledger, EscrowFor(c.reference))
      case Funded =>
        && named != None && Genuine(s, c, named.value) && Fundable(s, c, named.value)
        && Unused(s.ledger, EscrowFor(c.reference))
  {
    if ExtractedOrderId(c.metadata).Some? {
      var id := ExtractedOrderId(c.metadata).value;
      GenuineIffScreened(s, c, id);
      if Genuine(s, c, id) {
        AmountPassesIff(c.v.amount, s.orders[id].total, c.oneKoboOver);
        HoldIsFirst(s.ledger, id);
        GenuineVerdict(s, c, id);
      }
    }
  }

  // ------------------------------------------------------------- charge.failed

  /** A failure marks an existing record FAILED if and only if it has not succeeded. */
  lemma ChargeFailedExactly(s: Store, reference: PaymentRef)
    ensures
      Step(s, ChargeFailed(reference)) ==
      if reference in s.payments && s.payments[reference].state != PaymentSuccess
      then s.(payments := s.payments[reference := s.payments[reference].(state := PaymentFailed)])
      else s
  {
  }
}
