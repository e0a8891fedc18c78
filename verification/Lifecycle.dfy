/** What each handler decides from the order row and its delivery row: the guards in source order, the rows it
    writes and the ledger rows it books. Everything random or remote (Stripe's answer, payment state, tokens,
    proofs) is an argument of the event. */
module Lifecycle {
  import opened Domain

  datatype StripeReply = Refused | Accepted(refundId: nat)

  datatype Event =
    // orders.service.ts
    | ConfirmPayment(caller: User, paid: bool)
    | StartPreparing(caller: User)
    | MarkReady(caller: User, token: nat)
    | NoDriverTimeout
    | DecideNoDriver(caller: User, switchToPickup: bool, stripe: StripeReply)
    | AutoCancelNoResponse(stripe: StripeReply)
    | CannotProvide(caller: User, stripe: StripeReply)
    | CancelBySeller(stripe: StripeReply)
    | ConfirmPickup(caller: User)
    | RefundForDispute(stripe: StripeReply)
    | DriverTimeout(stripe: StripeReply)
    // stripe-webhook-handler.service.ts
    | PaymentSucceeded(intent: nat)
    | PaymentFailed(intent: nat, hadIntent: bool)
    // deliveries.service.ts
    | Claim(driver: User, eligible: bool)
    | Arrive(driver: User)
    | PickUp(driver: User, scanned: nat, minted: nat)
    | DeliverByScan(driver: User, scanned: nat)
    | DeliverAbsent(driver: User, photo: bool, gps: bool)
    | ReportUnavailable(driver: User, gps: bool, stripe: StripeReply)

  datatype Local = Local(order: Order, delivery: Option<DeliveryRow>)

  /** The rows as written. Stock, Stripe and reversal follow from the order row: see Marketplace.Apply. */
  datatype Effect = Effect(order: Order, delivery: Option<DeliveryRow>, reverseDriverPay: bool, booked: seq<Entry>)

  datatype Verdict = Verdict(effect: Option<Effect>, outcome: Outcome)

  function Reject(error: Error): Verdict { Verdict(None, Outcome.Failed(error)) }

  function Skip(): Verdict { Verdict(None, Skipped) }

  function Write(order: Order, delivery: Option<DeliveryRow>): Verdict {
    Verdict(Some(Effect(order, delivery, false, [])), Done)
  }

  // ---- Shared pieces ----

  /** `refundOrderIfNeeded`: once per order, and only for an order with a PaymentIntent. */
  function RefundIfNeeded(order: Order, stripe: StripeReply): Order {
    if order.refund.Some? || order.paymentIntent.None? then order
    else match stripe
         case Refused => order
         case Accepted(id) => order.(refund := Some(id))
  }

  function CancelAndRestock(order: Order): Order {
    order.(status := OrderStatus.Cancelled, inventoryRestored := true)
  }

  predicate AlreadyResolved(status: OrderStatus) {
    status.Cancelled? || status.Refunded? || status.Delivered? || status.Completed?
  }

  predicate SellerCancellable(status: OrderStatus) {
    status.Confirmed? || status.Preparing? || status.Ready?
  }

  predicate PrePickup(status: DeliveryStatus) {
    status.Assigned? || status.EnRouteToPickup? || status.AtPickup?
  }

  predicate OutForDelivery(status: DeliveryStatus) {
    status.PickedUp? || status.EnRouteToDropoff? || status.AtDropoff?
  }

  function CancelDelivery(d: Option<DeliveryRow>): Option<DeliveryRow> {
    if d.None? then None else Some(d.value.(status := DeliveryStatus.Cancelled))
  }

  // ---- Ledger rows ----

  function IfPositive(amountCents: int, row: Entry): seq<Entry> {
    if amountCents > 0 then [row] else []
  }

  function Earning(user: User, o: OrderId, kind: EntryKind, amountCents: int, status: EntryStatus,
                   availableAt: Option<Time>, note: EntryNote): Entry {
    Entry(user, Some(o), kind, amountCents, status, None, availableAt, None, note)
  }

  /** The DELIVERED delivery of the order, if any. */
  function Fulfilled(d: Option<DeliveryRow>): Option<DeliveryRow> {
    if d.Some? && d.value.status.Delivered? then d else None
  }

  /** `creditForCompletedOrder`: earnings PENDING until delivery plus the window, HELD when disputed. */
  function CompletionRows(o: OrderId, order: Order, delivered: Option<DeliveryRow>, now: Time, window: nat)
    : seq<Entry>
  {
    if !order.status.Delivered? && !order.status.Completed? && !order.status.Disputed? then []
    else
      var t := order.terms;
      var disputed := order.status.Disputed?;
      var deliveredAt := if delivered.Some? && delivered.value.deliveredAt.Some?
                         then delivered.value.deliveredAt.value else now;
      var status := if disputed then EntryStatus.Held else EntryStatus.Pending;
      var availableAt := if disputed then None else Some(deliveredAt + window);
      IfPositive(t.sellerEarningsCents,
                 Earning(t.seller, o, OrderEarning, t.sellerEarningsCents, status, availableAt, NoNote))
      + IfPositive(t.commissionCents,
                   Earning(Platform, o, Commission, t.commissionCents, EntryStatus.Available, Some(now), NoNote))
      + if order.choice.Delivery? && delivered.Some? && delivered.value.driver.Some?
        then IfPositive(t.fulfillmentFeeCents,
                        Earning(delivered.value.driver.value, o, DeliveryEarning, t.fulfillmentFeeCents, status,
                                availableAt, NoNote))
        else []
  }

  /** `compensateDriver` */
  function CompensationRows(o: OrderId, driver: User, feeCents: int, now: Time): seq<Entry> {
    IfPositive(feeCents,
               Earning(driver, o, DeliveryEarning, feeCents, EntryStatus.Available, Some(now), SellerUnavailable))
  }

  /** The seller's pay when a driver disappeared: `creditSellerEarning` */
  function SellerPay(o: OrderId, seller: User, cents: int, now: Time): seq<Entry> {
    IfPositive(cents, Earning(seller, o, OrderEarning, cents, EntryStatus.Available, Some(now), DriverDisappeared))
  }

  /** `recordDriverDebt` */
  function DriverDebtRows(o: OrderId, driver: User, cents: int, now: Time): seq<Entry> {
    IfPositive(cents, Earning(driver, o, DriverDebt, -cents, EntryStatus.Available, Some(now), Clawback))
  }

  function DisappearanceRows(o: OrderId, order: Order, driver: Option<User>, now: Time): seq<Entry> {
    SellerPay(o, order.terms.seller, order.terms.sellerEarningsCents, now)
    + if driver.None? then [] else DriverDebtRows(o, driver.value, order.terms.buyerTotalCents, now)
  }

  // ---- The handlers ----

  function ConfirmPaymentBy(l: Local, caller: User, paid: bool): Verdict {
    if l.order.terms.buyer != caller then Reject(Forbidden)
    else if !l.order.status.Pending? then Verdict(None, Done)
    else if l.order.paymentIntent.None? || !paid then Reject(Conflict)
    else Write(l.order.(status := OrderStatus.Confirmed), l.delivery)
  }

  function StartPreparingBy(l: Local, caller: User): Verdict {
    if l.order.terms.seller != caller then Reject(Forbidden)
    else if !l.order.status.Confirmed? then Reject(Conflict)
    else Write(l.order.(status := OrderStatus.Preparing), l.delivery)
  }

  function NewDelivery(o: OrderId, token: nat): DeliveryRow {
    DeliveryRow(o, DeliveryStatus.Searching, None, Some(token), None, None, None, None, false, None)
  }

  function MarkReadyBy(o: OrderId, l: Local, caller: User, token: nat): Verdict {
    if l.order.terms.seller != caller then Reject(Forbidden)
    else if !l.order.status.Preparing? then Reject(Conflict)
    else Write(l.order.(status := OrderStatus.Ready),
               if l.order.choice.Delivery? then Some(NewDelivery(o, token)) else l.delivery)
  }

  function OnNoDriverTimeout(l: Local): Verdict {
    if l.delivery.Some? && (l.delivery.value.driver.Some? || !l.delivery.value.status.Searching?) then Skip()
    else if !l.order.status.Ready? || !l.order.choice.Delivery? then Skip()
    else Write(l.order.(status := OrderStatus.NoDriverAvailable), l.delivery)
  }

  function CancelNoDriver(l: Local, stripe: StripeReply): Verdict {
    Write(RefundIfNeeded(CancelAndRestock(l.order), stripe), CancelDelivery(l.delivery))
  }

  function DecideNoDriverBy(l: Local, caller: User, switchToPickup: bool, stripe: StripeReply): Verdict {
    if l.order.terms.buyer != caller then Reject(Forbidden)
    else if !l.order.status.NoDriverAvailable? then Reject(Conflict)
    else if switchToPickup
    then Write(l.order.(status := OrderStatus.Ready, choice := Fulfillment.Pickup), CancelDelivery(l.delivery))
    else CancelNoDriver(l, stripe)
  }

  function OnNoResponse(l: Local, stripe: StripeReply): Verdict {
    if !l.order.status.NoDriverAvailable? then Skip() else CancelNoDriver(l, stripe)
  }

  function CannotProvideError(l: Local, caller: User): Option<Error> {
    if l.order.terms.seller != caller then Some(Forbidden)
    else if (l.delivery.Some? && l.delivery.value.pickupConfirmedAt.Some?)
            || l.order.status.InDelivery? || l.order.status.PickedUp? then Some(Conflict)
    else if AlreadyResolved(l.order.status) then Some(Conflict)
    else if !SellerCancellable(l.order.status) then Some(BadRequest)
    else None
  }

  function CannotProvideBy(l: Local, caller: User, stripe: StripeReply): Verdict {
    var error := CannotProvideError(l, caller);
    if error.Some? then Reject(error.value)
    else Write(RefundIfNeeded(CancelAndRestock(l.order), stripe),
               if l.delivery.Some? && !l.delivery.value.status.Cancelled? && !l.delivery.value.status.Failed?
               then CancelDelivery(l.delivery) else l.delivery)
  }

  /** The transaction of `cancelAsSeller` re-reads the status; the refund after it runs either way, and the
      delivery is never touched. */
  function CommitCancelBySeller(l: Local, stripe: StripeReply): Verdict {
    var order := if SellerCancellable(l.order.status) then CancelAndRestock(l.order) else l.order;
    Write(RefundIfNeeded(order, stripe), l.delivery)
  }

  function ConfirmPickupBy(o: OrderId, l: Local, caller: User, now: Time, window: nat): Verdict {
    if l.order.terms.seller != caller && l.order.terms.buyer != caller then Reject(Forbidden)
    else if !l.order.choice.Pickup? then Reject(BadRequest)
    else if !l.order.status.Ready? then Reject(Conflict)
    else
      var order := l.order.(status := OrderStatus.Delivered);
      var rows := CompletionRows(o, order, Fulfilled(l.delivery), now, window);
      Verdict(Some(Effect(order, l.delivery, false, rows)), Done)
  }

  function RefundDispute(l: Local, stripe: StripeReply): Verdict {
    Write(RefundIfNeeded(l.order, stripe).(status := OrderStatus.Refunded), l.delivery)
  }

  /** Picked up, not handed over, and the order still IN_DELIVERY. */
  predicate TimeoutDue(order: Order, d: DeliveryRow) {
    && !(d.status.Delivered? || d.deliveredConfirmedAt.Some? || d.deliveredAsAbsent)
    && !(d.status.Failed? || d.status.Cancelled?)
    && d.pickupConfirmedAt.Some?
    && order.status.InDelivery?
  }

  function OnDriverTimeout(o: OrderId, order: Order, d: DeliveryRow, stripe: StripeReply, now: Time): Verdict {
    if !TimeoutDue(order, d) then Skip()
    else Verdict(Some(Effect(RefundIfNeeded(order.(status := OrderStatus.Cancelled), stripe),
                             Some(d.(status := DeliveryStatus.Failed)), true,
                             DisappearanceRows(o, order, d.driver, now))), Done)
  }

  function OnPaymentSucceeded(l: Local, intent: nat): Verdict {
    if !l.order.status.Pending? then Skip()
    else Write(l.order.(status := OrderStatus.Confirmed,
                        paymentIntent := if l.order.paymentIntent.Some? then l.order.paymentIntent else Some(intent)),
               l.delivery)
  }

  function CommitPaymentFailed(l: Local, intent: nat, hadIntent: bool): Verdict {
    if !l.order.status.Pending? then Skip()
    else Write(CancelAndRestock(l.order).(paymentIntent := if hadIntent then l.order.paymentIntent else Some(intent)),
               l.delivery)
  }

  function ClaimBy(l: Local, d: DeliveryRow, driver: User, eligible: bool): Verdict {
    if !eligible then Reject(Forbidden)
    else if !d.status.Searching? || d.driver.Some? then Reject(Conflict)
    else Write(l.order, Some(d.(status := DeliveryStatus.Assigned, driver := Some(driver))))
  }

  function ArriveBy(l: Local, d: DeliveryRow, driver: User): Verdict {
    if d.driver != Some(driver) then Reject(Forbidden)
    else if !d.status.Assigned? then Reject(Conflict)
    else Write(l.order, Some(d.(status := DeliveryStatus.AtPickup)))
  }

  /** Writes IN_DELIVERY whatever the order's status is. */
  function PickUpBy(l: Local, d: DeliveryRow, driver: User, scanned: nat, minted: nat, now: Time): Verdict {
    if d.driver != Some(driver) then Reject(Forbidden)
    else if d.pickupConfirmedAt.Some? || OutForDelivery(d.status) || d.status.Delivered? then Reject(Conflict)
    else if !PrePickup(d.status) then Reject(Conflict)
    else if d.pickupToken != Some(scanned) then Reject(BadRequest)
    else Write(l.order.(status := OrderStatus.InDelivery),
               Some(d.(status := DeliveryStatus.PickedUp, pickupConfirmedAt := Some(now),
                       deliveryToken := Some(minted))))
  }

  function HandedOver(d: DeliveryRow, absent: bool, now: Time): DeliveryRow {
    var d' := d.(status := DeliveryStatus.Delivered, deliveredAt := Some(now), deliveredConfirmedAt := Some(now));
    if absent then d'.(deliveredAsAbsent := true) else d'
  }

  /** Both confirmations: the delivery row is written first, then `confirmDeliveredByDriver` runs and may still
      reject an order that is not for delivery. */
  function Deliver(o: OrderId, order: Order, d: DeliveryRow, absent: bool, now: Time, window: nat): Verdict {
    var d' := HandedOver(d, absent, now);
    if !order.choice.Delivery? then Verdict(Some(Effect(order, Some(d'), false, [])), Outcome.Failed(BadRequest))
    else
      var order' := order.(status := OrderStatus.Delivered);
      Verdict(Some(Effect(order', Some(d'), false, CompletionRows(o, order', Some(d'), now, window))), Done)
  }

  /** The checks both confirmations share. */
  function DeliverError(d: DeliveryRow, driver: User): Option<Error> {
    if d.driver != Some(driver) then Some(Forbidden)
    else if d.deliveredConfirmedAt.Some? || d.status.Delivered? then Some(Conflict)
    else if !OutForDelivery(d.status) then Some(Conflict)
    else None
  }

  function DeliverByScanBy(o: OrderId, l: Local, d: DeliveryRow, driver: User, scanned: nat, now: Time,
                           window: nat): Verdict
  {
    var error := DeliverError(d, driver);
    if error.Some? then Reject(error.value)
    else if d.deliveryToken != Some(scanned) then Reject(BadRequest)
    else Deliver(o, l.order, d, false, now, window)
  }

  function DeliverAbsentBy(o: OrderId, l: Local, d: DeliveryRow, driver: User, photo: bool, gps: bool, now: Time,
                           window: nat): Verdict {
    var error := DeliverError(d, driver);
    if error.Some? then Reject(error.value)
    else if !photo || !gps then Reject(BadRequest)
    else Deliver(o, l.order, d, true, now, window)
  }

  function ReportError(order: Order, d: DeliveryRow, driver: User, gps: bool): Option<Error> {
    if d.driver != Some(driver) then Some(Forbidden)
    else if d.sellerUnavailableAt.Some? || d.status.Cancelled? || d.status.Failed? then Some(Conflict)
    else if d.pickupConfirmedAt.Some? || OutForDelivery(d.status) || d.status.Delivered? then Some(Conflict)
    else if AlreadyResolved(order.status) then Some(Conflict)
    else if !gps then Some(BadRequest)
    else None
  }

  function ReportUnavailableBy(o: OrderId, l: Local, d: DeliveryRow, driver: User, gps: bool, stripe: StripeReply,
                               now: Time): Verdict {
    var error := ReportError(l.order, d, driver, gps);
    if error.Some? then Reject(error.value)
    else Verdict(Some(Effect(RefundIfNeeded(CancelAndRestock(l.order), stripe),
                             Some(d.(status := DeliveryStatus.Cancelled, sellerUnavailableAt := Some(now))), false,
                             CompensationRows(o, driver, l.order.terms.fulfillmentFeeCents, now))), Done)
  }

  predicate ForDelivery(e: Event) {
    || e.DriverTimeout? || e.Claim? || e.Arrive? || e.PickUp?
    || e.DeliverByScan? || e.DeliverAbsent? || e.ReportUnavailable?
  }

  /** The handler of every event, on the rows it loads. A delivery event needs its delivery row. */
  function Decide(e: Event, o: OrderId, l: Local, now: Time, window: nat): Verdict
    requires ForDelivery(e) ==> l.delivery.Some?
  {
    match e
    case ConfirmPayment(caller, paid) => ConfirmPaymentBy(l, caller, paid)
    case StartPreparing(caller) => StartPreparingBy(l, caller)
    case MarkReady(caller, token) => MarkReadyBy(o, l, caller, token)
    case NoDriverTimeout => OnNoDriverTimeout(l)
    case DecideNoDriver(caller, switchToPickup, stripe) => DecideNoDriverBy(l, caller, switchToPickup, stripe)
    case AutoCancelNoResponse(stripe) => OnNoResponse(l, stripe)
    case CannotProvide(caller, stripe) => CannotProvideBy(l, caller, stripe)
    case CancelBySeller(stripe) => CommitCancelBySeller(l, stripe)
    case ConfirmPickup(caller) => ConfirmPickupBy(o, l, caller, now, window)
    case RefundForDispute(stripe) => RefundDispute(l, stripe)
    case DriverTimeout(stripe) => OnDriverTimeout(o, l.order, l.delivery.value, stripe, now)
    case PaymentSucceeded(intent) => OnPaymentSucceeded(l, intent)
    case PaymentFailed(intent, hadIntent) => CommitPaymentFailed(l, intent, hadIntent)
    case Claim(driver, eligible) => ClaimBy(l, l.delivery.value, driver, eligible)
    case Arrive(driver) => ArriveBy(l, l.delivery.value, driver)
    case PickUp(driver, scanned, minted) => PickUpBy(l, l.delivery.value, driver, scanned, minted, now)
    case DeliverByScan(driver, scanned) => DeliverByScanBy(o, l, l.delivery.value, driver, scanned, now, window)
    case DeliverAbsent(driver, photo, gps) => DeliverAbsentBy(o, l, l.delivery.value, driver, photo, gps, now, window)
    case ReportUnavailable(driver, gps, stripe) => ReportUnavailableBy(o, l, l.delivery.value, driver, gps, stripe, now)
  }
}
