/** payments.service.ts: opening a payment and the polling fallback. */
module Payments {
  import opened Types
  import opened Tables
  import opened Webhook
  import Escrow

  datatype InitiateOutcome =
    | Initiated | InitiateNoOrder | InitiateNotAwaiting(status: OrderStatus) | NotTheBuyer | WrongEmail
    | AlreadyPaid | GatewayFailed | ReferenceInUse

  predicate HasSuccess(payments: map<PaymentRef, Payment>, id: OrderId) {
    exists r :: r in payments && payments[r].orderId == id && payments[r].state.PaymentSuccess?
  }

  // `reference` is the random EW-PAY-... reference; the unique index refuses a used one.
  function InitiateVerdict(s: Store, id: OrderId, buyer: User, reference: PaymentRef,
                           gatewayWorks: bool): InitiateOutcome {
    if id !in s.orders then InitiateNoOrder
    else
      var order := s.orders[id];
      if order.status != AwaitingPayment then InitiateNotAwaiting(order.status)
      else if order.buyer.Some? && order.buyer != Some(buyer.id) then NotTheBuyer
      else if order.buyer.None? && order.buyerEmail != buyer.email then WrongEmail
      else if HasSuccess(s.payments, id) then AlreadyPaid
      else if !gatewayWorks then GatewayFailed
      else if reference in s.payments then ReferenceInUse
      else Initiated
  }

  function AfterInitiate(s: Store, id: OrderId, buyer: User, reference: PaymentRef, gatewayWorks: bool): (t: Store)
    ensures SameFrame(s, t)
  {
    if InitiateVerdict(s, id, buyer, reference, gatewayWorks).Initiated?
    then s.(payments := s.payments[reference := Payment(id, s.orders[id].total, PaymentPending, None)])
    else s
  }

  // --------------------------------------------------------- verifyByReference

  datatype VerifyOutcome = AlreadyVerified | VerifyFailed | NothingToDo | MarkedPaid(hold: Escrow.HoldOutcome)

  function PaidOrder(order: Order, paidAt: Time): Order {
    order.(status := Paid, stamps := order.stamps.(paid := Some(paidAt)))
  }

  // The transaction of the polling path: record and order, whatever the order's status.
  function MarkPaid(s: Store, reference: PaymentRef, paidAt: Time): (t: Store)
    requires reference in s.payments && s.payments[reference].orderId in s.orders
    ensures SameFrame(s, t)
  {
    var record := s.payments[reference];
    s.(payments := s.payments[reference := record.(state := PaymentSuccess, verifiedAt := Some(paidAt))],
       orders := s.orders[record.orderId := PaidOrder(s.orders[record.orderId], paidAt)])
  }

  // Does this call write PAID to the order of `reference`?
  predicate Confirms(s: Store, reference: PaymentRef, v: Verification) {
    && reference in s.payments
    && !s.payments[reference].state.PaymentSuccess?
    && s.payments[reference].orderId in s.orders
    && v.status == "success"
    && v.PollTime().Some?
  }

  function VerifyVerdict(s: Store, reference: PaymentRef, v: Verification, oneKoboOver: bool): VerifyOutcome {
    if reference in s.payments && s.payments[reference].state.PaymentSuccess? then AlreadyVerified
    else if reference !in s.payments || v.status != "success" then NothingToDo
    else if v.PollTime().None? || s.payments[reference].orderId !in s.orders then VerifyFailed
    else
      var id := s.payments[reference].orderId;
      var marked := MarkPaid(s, reference, v.PollTime().value);
      MarkedPaid(Escrow.HoldVerdict(marked, id, v.amount, EscrowFor(reference), oneKoboOver))
  }

  // `v` is Paystack's answer, asked for only when the record is not yet a success.
  function AfterVerify(s: Store, reference: PaymentRef, v: Verification, oneKoboOver: bool): (t: Store)
    ensures SameFrame(s, t)
  {
    if reference in s.payments && s.payments[reference].state.PaymentSuccess? then
      var id := s.payments[reference].orderId;
      if id in s.orders && s.orders[id].status == AwaitingPayment then
        var verifiedAt := s.payments[reference].verifiedAt;
        s.(orders := s.orders[id := PaidOrder(s.orders[id], if verifiedAt.Some? then verifiedAt.value else s.now)])
      else s
    else if !Confirms(s, reference, v) then s
    else
      Escrow.AfterHold(MarkPaid(s, reference, v.PollTime().value), s.payments[reference].orderId, v.amount,
                       EscrowFor(reference), Some(reference), oneKoboOver, true)
  }

  /** The hold that the polling path attempts never happens: its own write has just
      taken the order out of AWAITING_PAYMENT. */
  lemma PollingHoldDeclines(s: Store, reference: PaymentRef, v: Verification, oneKoboOver: bool)
    requires Confirms(s, reference, v)
    ensures VerifyVerdict(s, reference, v, oneKoboOver) == MarkedPaid(Escrow.HoldNotAwaiting(Paid))
    ensures AfterVerify(s, reference, v, oneKoboOver) == MarkPaid(s, reference, v.PollTime().value)
  {
  }

  class PaymentsService {
    const db: Database
    const escrow: Escrow.EscrowService

    constructor (db: Database, escrow: Escrow.EscrowService)
      requires escrow.db == db
      ensures this.db == db && this.escrow == escrow
    {
      this.db, this.escrow := db, escrow;
    }

    method InitiatePayment(id: OrderId, buyer: User, reference: PaymentRef, gatewayWorks: bool)
      returns (r: InitiateOutcome)
      modifies db
      ensures r == InitiateVerdict(old(db.State()), id, buyer, reference, gatewayWorks)
      ensures db.State() == AfterInitiate(old(db.State()), id, buyer, reference, gatewayWorks)
    {
      if id !in db.orders {
        return InitiateNoOrder;
      }
      var order := db.orders[id];
      if order.status != AwaitingPayment {
        return InitiateNotAwaiting(order.status);
      }
      if order.buyer.Some? && order.buyer.value != buyer.id {
        return NotTheBuyer;
      }
      if order.buyer.None? && order.buyerEmail != buyer.email {
        return WrongEmail;
      }
      if HasSuccess(db.payments, id) {
        return AlreadyPaid;
      }
      if !gatewayWorks {
        return GatewayFailed;
      }
      if reference in db.payments {
        return ReferenceInUse;
      }
      db.payments := db.payments[reference := Payment(id, order.total, PaymentPending, None)];
      return Initiated;
    }

    method VerifyByReference(reference: PaymentRef, v: Verification, oneKoboOver: bool) returns (r: VerifyOutcome)
      requires escrow.db == db
      modifies db
      ensures r == VerifyVerdict(old(db.State()), reference, v, oneKoboOver)
      ensures db.State() == AfterVerify(old(db.State()), reference, v, oneKoboOver)
    {
      if reference !in db.payments {
        return NothingToDo;
      }
      var existing := db.payments[reference];
      var id := existing.orderId;
      if existing.state.PaymentSuccess? {
        if id in db.orders && db.orders[id].status == AwaitingPayment {
          var paidAt := if existing.verifiedAt.Some? then existing.verifiedAt.value else db.now;
          db.orders := db.orders[id := PaidOrder(db.orders[id], paidAt)];
        }
        return AlreadyVerified;
      }
      if v.status != "success" {
        return NothingToDo;
      }
      if v.PollTime().None? || id !in db.orders {
        return VerifyFailed;
      }
      db.payments := db.payments[reference := existing.(state := PaymentSuccess, verifiedAt := v.PollTime())];
      db.orders := db.orders[id := PaidOrder(db.orders[id], v.PollTime().value)];
      assert db.State() == MarkPaid(old(db.State()), reference, v.PollTime().value);
      var hold := escrow.HoldFunds(id, v.amount, EscrowFor(reference), Some(reference), oneKoboOver, true);
      return MarkedPaid(hold);
    }
  }
}
