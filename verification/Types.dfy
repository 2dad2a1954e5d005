/** The rows of the database tables the escrow back end reads and writes, as values. */
module Types {

  datatype Option<+T> = None | Some(value: T)

  type OrderId = string
  type UserId = string
  type PaymentRef = string   // a Paystack transaction or transfer reference
  type Kobo = int
  type Time = nat            // milliseconds

  datatype OrderStatus =
    | Draft | PendingBuyer | AwaitingPayment | Paid | Shipped | InTransit
    | Delivered | Completed | Disputed | Cancelled | Refunded

  datatype EscrowStatus = Pending | Holding | PartiallyReleased | Released | Refunded | Disputed

  datatype User = User(id: UserId, email: string, isAdmin: bool)

  // One timestamp column per state transition; None is SQL null.
  datatype Stamps = Stamps(
    sentToBuyer: Option<Time>, buyerConfirmed: Option<Time>, paid: Option<Time>,
    shipped: Option<Time>, pickedUp: Option<Time>, delivered: Option<Time>,
    completed: Option<Time>, cancelled: Option<Time>, disputed: Option<Time>, refunded: Option<Time>)

  datatype Order = Order(
    seller: UserId, buyer: Option<UserId>, rider: Option<UserId>, buyerEmail: string,
    itemPrice: Kobo, deliveryFee: Kobo, total: Kobo,
    platformFee: Kobo, sellerPayout: Kobo, riderPayout: Kobo,
    status: OrderStatus, escrow: EscrowStatus, stamps: Stamps)

  // ------------------------------------------------------- escrow transactions

  datatype LedgerKind = EscrowHold | PlatformFee | FullRelease | Refund

  // The reference column. A hold carries its manual caller's own text, or `ESCROW-<ref>`
  // for the Paystack payment it was paid by; the others are made from order id and time.
  datatype LedgerRef =
    | ByCaller(name: string)
    | EscrowFor(payment: PaymentRef)
    | FeeFor(order: OrderId, at: Time)
    | ReleaseOf(order: OrderId, at: Time)
    | RefundOf(order: OrderId, at: Time)

  datatype LedgerRow = LedgerRow(
    orderId: OrderId, kind: LedgerKind, amount: Kobo, reference: LedgerRef, paystackRef: Option<PaymentRef>)

  // --------------------------------------------------------------- audit log

  datatype Trigger = ByBuyer | ByAutoRelease | ByAdmin

  datatype AuditAction = HoldAction | ReleaseAction(triggeredBy: Trigger) | RefundAction

  // The JSON metadata column, as far as each action fills it.
  datatype AuditMetadata =
    | HoldMetadata(paystackRef: Option<PaymentRef>)
    | ReleaseMetadata(platformFee: Kobo)
    | RefundMetadata

  datatype AuditRow = AuditRow(
    orderId: OrderId, action: AuditAction, fromStatus: EscrowStatus, toStatus: EscrowStatus,
    amount: Kobo, reference: LedgerRef, metadata: AuditMetadata)

  // ------------------------------------------------------- payments and payouts

  datatype PaymentState = PaymentPending | PaymentSuccess | PaymentFailed

  datatype Payment = Payment(orderId: OrderId, amount: Kobo, state: PaymentState, verifiedAt: Option<Time>)

  datatype TransferState = TransferPending | TransferSuccess | TransferFailed

  datatype Transfer = Transfer(orderId: OrderId, reference: PaymentRef, amount: Kobo, state: TransferState)

  // ------------------------------------------------------------------ disputes

  datatype Resolution = ForBuyer | ForSeller

  datatype DisputeState = Open | UnderReview | Resolved(resolution: Resolution) | Closed

  datatype Dispute = Dispute(raisedBy: UserId, state: DisputeState, resolvedBy: Option<UserId>)

  datatype DisputeEvent =
    | RaisedEvent(orderId: OrderId, actor: UserId)
    | ResolvedEvent(orderId: OrderId, actor: UserId, resolution: Resolution)

  // An admin's `resolve` call between its reads and its transaction.
  datatype Ticket = Ticket(call: nat, orderId: OrderId, admin: UserId, resolution: Resolution)
}
