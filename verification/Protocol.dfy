/** The back end as one state machine: every call, webhook, job and clock tick is a command. */
module Protocol {
  import opened Types
  import opened Tables
  import opened Metadata
  import opened OrderStateMachine
  import opened Webhook
  import Escrow
  import Orders
  import Payments
  import Disputes
  import Transfers
  import AutoRelease

  datatype Command =
    | Tick(elapsed: nat)
    | Create(id: OrderId, seller: UserId, buyerEmail: string, itemPrice: Kobo, deliveryFee: Kobo,
             feeUp: bool, riderUp: bool, sellerActive: bool, imagesValid: bool)
    | UpdateStatus(id: OrderId, next: OrderStatus, user: User)
    | ConfirmByBuyer(id: OrderId, user: User)
    | AssignRider(id: OrderId, rider: UserId, riderActive: bool)
    | InitiatePayment(id: OrderId, user: User, reference: PaymentRef, gatewayWorks: bool)
    | VerifyByReference(reference: PaymentRef, v: Verification, oneKoboOver: bool)
    | ChargeSuccess(reference: PaymentRef, metadata: PaymentMetadata, v: Verification, oneKoboOver: bool,
                    schedulingWorks: bool)
    | ChargeFailed(reference: PaymentRef)
    | HoldFunds(id: OrderId, amount: Kobo, holdRef: LedgerRef, paystackRef: Option<PaymentRef>, oneKoboOver: bool,
                queueWorks: bool)
    | AutoReleaseJob(id: OrderId)
    | AdminRelease(id: OrderId)
    | RefundFunds(id: OrderId)
    | RaiseDispute(id: OrderId, user: User)
    | ResolveRead(call: nat, id: OrderId, user: User, resolution: Resolution)
    | ResolveCommit(ticket: Ticket)
    | InitiateTransfer(id: OrderId, reference: PaymentRef, hasRecipient: bool)
    | TransferSucceeded(reference: PaymentRef)
    | TransferFailedOrReversed(reference: PaymentRef)

  // What the request to hold funds may carry: a positive amount, and a reference of the
  // caller's own or ESCROW-<payment>.
  predicate HoldRequest(c: Command)
    requires c.HoldFunds?
  {
    c.amount > 0 && CallerReference(c.holdRef)
  }

  predicate CallerReference(reference: LedgerRef) {
    reference.ByCaller? || reference.EscrowFor?
  }

  predicate OrderCommand(c: Command) {
    c.Create? || c.UpdateStatus? || c.ConfirmByBuyer? || c.AssignRider?
  }

  predicate PaymentCommand(c: Command) {
    c.InitiatePayment? || c.VerifyByReference? || c.ChargeSuccess? || c.ChargeFailed?
  }

  predicate EscrowCommand(c: Command) {
    c.HoldFunds? || c.AutoReleaseJob? || c.AdminRelease? || c.RefundFunds?
  }

  predicate DisputeCommand(c: Command) {
    c.RaiseDispute? || c.ResolveRead? || c.ResolveCommit?
  }

  predicate TransferCommand(c: Command) {
    c.InitiateTransfer? || c.TransferSucceeded? || c.TransferFailedOrReversed?
  }

  function OrderStep(s: Store, c: Command): Store
    requires OrderCommand(c)
  {
    match c
    case Create(id, seller, buyerEmail, itemPrice, deliveryFee, feeUp, riderUp, sellerActive, imagesValid) =>
      Orders.AfterCreate(s, id, seller, buyerEmail, itemPrice, deliveryFee, feeUp, riderUp, sellerActive, imagesValid)
    case UpdateStatus(id, next, user) => Orders.AfterUpdate(s, id, next, user)
    case ConfirmByBuyer(id, user) => Orders.AfterConfirm(s, id, user)
    case AssignRider(id, rider, riderActive) => Orders.AfterAssignRider(s, id, rider, riderActive)
  }

  function PaymentStep(s: Store, c: Command): Store
    requires PaymentCommand(c)
  {
    match c
    case InitiatePayment(id, user, reference, gatewayWorks) =>
      Payments.AfterInitiate(s, id, user, reference, gatewayWorks)
    case VerifyByReference(reference, v, oneKoboOver) => Payments.AfterVerify(s, reference, v, oneKoboOver)
    case ChargeSuccess(reference, metadata, v, oneKoboOver, schedulingWorks) =>
      AfterCharge(s, reference, metadata, v, oneKoboOver, schedulingWorks)
    case ChargeFailed(reference) => AfterChargeFailed(s, reference)
  }

  function EscrowStep(s: Store, c: Command): Store
    requires EscrowCommand(c)
  {
    match c
    case HoldFunds(id, amount, holdRef, paystackRef, oneKoboOver, queueWorks) =>
      if HoldRequest(c) then Escrow.AfterHold(s, id, amount, holdRef, paystackRef, oneKoboOver, queueWorks) else s
    case AutoReleaseJob(id) => AutoRelease.AfterAutoRelease(s, id)
    case AdminRelease(id) => Escrow.AfterAdminRelease(s, id)
    case RefundFunds(id) => Escrow.AfterRefund(s, id)
  }

  function DisputeStep(s: Store, c: Command): Store
    requires DisputeCommand(c)
  {
    match c
    case RaiseDispute(id, user) => Disputes.AfterRaise(s, id, user)
    case ResolveRead(call, id, user, resolution) => Disputes.AfterResolveRead(s, call, id, user, resolution)
    case ResolveCommit(ticket) => Disputes.AfterResolveCommit(s, ticket)
  }

  function TransferStep(s: Store, c: Command): Store
    requires TransferCommand(c)
  {
    match c
    case InitiateTransfer(id, reference, hasRecipient) => Transfers.AfterTransfer(s, id, reference, hasRecipient)
    case TransferSucceeded(reference) => Transfers.AfterTransferState(s, reference, TransferSuccess)
    case TransferFailedOrReversed(reference) => Transfers.AfterTransferState(s, reference, TransferFailed)
  }

  function Step(s: Store, c: Command): (t: Store)
    ensures !c.Tick? && !c.Create? ==> SameFrame(s, t)
  {
    if c.Tick? then s.(now := s.now + c.elapsed)
    else if OrderCommand(c) then OrderStep(s, c)
    else if PaymentCommand(c) then PaymentStep(s, c)
    else if EscrowCommand(c) then EscrowStep(s, c)
    else if DisputeCommand(c) then DisputeStep(s, c)
    else TransferStep(s, c)
  }

  lemma ChargeStep(s: Store, c: Command)
    requires c.ChargeSuccess?
    ensures Step(s, c) == AfterCharge(s, c.reference, c.metadata, c.v, c.oneKoboOver, c.schedulingWorks)
  {
  }

  lemma PollStep(s: Store, c: Command)
    requires c.VerifyByReference?
    ensures Step(s, c) == Payments.AfterVerify(s, c.reference, c.v, c.oneKoboOver)
  {
  }

  lemma UpdateStep(s: Store, id: OrderId, next: OrderStatus, user: User)
    ensures Step(s, UpdateStatus(id, next, user)) == Orders.AfterUpdate(s, id, next, user)
  {
  }

  lemma RefundStep(s: Store, id: OrderId)
    ensures Step(s, RefundFunds(id)) == Escrow.AfterRefund(s, id)
  {
  }

  // An administrator's plain status change along the way.
  lemma AdminMoves(s: Store, id: OrderId, next: OrderStatus, admin: User)
    requires id in s.orders && admin.isAdmin
    requires (s.orders[id].status, next) in {(Paid, Shipped), (Shipped, InTransit), (InTransit, Delivered)}
    ensures
      var t := s.(orders := s.orders[id := Orders.MovedOrder(s.orders[id], next, s.now)]);
      Step(s, UpdateStatus(id, next, admin)) == t && Orders.AfterUpdate(s, id, next, admin) == t
  {
    assert FindTarget(Edges(s.orders[id].status), next).Some?;
  }

  function Run(s: Store, run: seq<Command>): Store
    decreases run
  {
    if run == [] then s else Run(Step(s, run[0]), run[1..])
  }

  lemma RunCons(s: Store, c: Command, rest: seq<Command>)
    ensures Run(s, [c] + rest) == Run(Step(s, c), rest)
  {
    assert ([c] + rest)[1..] == rest;
  }

  lemma {:induction false} RunAppend(s: Store, first: seq<Command>, second: seq<Command>)
    ensures Run(s, first + second) == Run(Run(s, first), second)
    decreases first
  {
    if first == [] {
      assert first + second == second;
    } else {
      assert (first + second)[1..] == first[1..] + second;
      RunAppend(Step(s, first[0]), first[1..], second);
    }
  }

  // ------------------------------------------------------------- one order

  // Everything the tables say about one order.
  datatype Case = Case(order: Order, rows: seq<LedgerRow>, dispute: Option<Dispute>, job: bool)

  function CaseOf(s: Store, id: OrderId): Case
    requires id in s.orders
  {
    Case(s.orders[id], Rows(s.ledger, id), if id in s.disputes then Some(s.disputes[id]) else None, id in s.jobs)
  }
}
