/** Which step moves an order, its delivery, its refund, its stock and its ledger rows: the guards are spelled out on
    the rows and the arguments, and each result says exactly when, over all steps of the system. */
module Transitions {
  import opened Domain
  import opened Pricing
  import opened Ledger
  import opened Lifecycle
  import opened Marketplace
  import opened Consistency
  import opened Views
  import opened Runs

  // ---- What reaches an order ----

  /** The requests, timers and webhooks addressed to an order. */
  predicate ToOrder(e: Event) {
    || e.ConfirmPayment? || e.StartPreparing? || e.MarkReady? || e.NoDriverTimeout? || e.DecideNoDriver?
    || e.AutoCancelNoResponse? || e.CannotProvide? || e.ConfirmPickup? || e.PaymentSucceeded?
  }

  const ONE_DAY := 86_400_000

  /** The claims `createDispute` takes in: the buyer's, on a paid order, within a day of delivery, with what its kind
      needs, and not twice while one is being looked at. */
  predicate ClaimStands(s: State, o: OrderId, caller: User, kind: DisputeKind, proof: bool, description: bool)
    requires o < |s.orders|
  {
    var order, d := s.orders[o], LatestRow(s, o);
    && caller == order.terms.buyer && !order.status.Pending? && !kind.Chargeback?
    && (order.status.Delivered? || order.status.Completed? ==>
          d.Some? && d.value.deliveredAt.Some? ==> s.now <= d.value.deliveredAt.value + ONE_DAY)
    && (kind.FoodPoisoning? ==> proof)
    && (kind.FalseAllergens? ==> description)
    && forall i :: 0 <= i < |s.disputes| && s.disputes[i].order == o && s.disputes[i].kind == kind ==>
         !s.disputes[i].status.Open? && !s.disputes[i].status.AdminReview?
  }

  predicate HandOverProved(d: Option<DeliveryRow>) {
    d.Some? && (d.value.deliveredConfirmedAt.Some? || d.value.deliveredAsAbsent)
  }

  predicate RefundedAtOnce(kind: DisputeKind, d: Option<DeliveryRow>) {
    kind.WrongOrder? || (kind.NeverReceived? && !HandOverProved(d))
  }

  /** The event a step brings to order `o`, if it brings one. */
  function EventOn(s: State, a: Action, o: OrderId): Option<Event>
    requires o < |s.orders|
  {
    match a
    case OnOrder(p, e) => if p == o && ToOrder(e) then Some(e) else None
    case OnDelivery(d, e) =>
      if d < |s.deliveries| && s.deliveries[d].order == o
         && !ToOrder(e) && !e.CancelBySeller? && !e.PaymentFailed? && !e.RefundForDispute?
      then Some(e) else None
    case CommitCancel(p, stripe) => if p == o && p in s.cancelsInFlight then Some(CancelBySeller(stripe)) else None
    case CommitFailure(f) =>
      if f.order == o && f in s.failuresInFlight then Some(PaymentFailed(f.intent, f.hadIntent)) else None
    case FileDispute(p, caller, kind, proof, description, stripe) =>
      if p == o && ClaimStands(s, o, caller, kind, proof, description) && RefundedAtOnce(kind, LatestRow(s, o))
      then Some(RefundForDispute(stripe)) else None
    case ApproveDispute(i, stripe) =>
      if i < |s.disputes| && s.disputes[i].order == o then Some(RefundForDispute(stripe)) else None
    case _ => None
  }

  lemma FilingStands(s: State, o: OrderId, caller: User, kind: DisputeKind, proof: bool, description: bool)
    requires o < |s.orders|
    ensures FilingError(s, o, caller, kind, proof, description).None?
        <==> ClaimStands(s, o, caller, kind, proof, description)
  {
  }

  lemma FilingCause(s: State, a: Action, o: OrderId)
    requires o < |s.orders| && a.FileDispute?
    ensures var c := CauseOf(s, a, o); EventOn(s, a, o) == if c.Handled? then Some(c.event) else None
  {
    if a.order < |s.orders| { FilingStands(s, a.order, a.caller, a.kind, a.proof, a.description); }
  }

  lemma DeliveryCause(s: State, a: Action, o: OrderId)
    requires Linked(s) && o < |s.orders| && a.OnDelivery?
    ensures var c := CauseOf(s, a, o); EventOn(s, a, o) == if c.Handled? then Some(c.event) else None
    ensures EventOn(s, a, o).Some? ==> LatestRow(s, o) == Some(s.deliveries[a.delivery])
  {
    if a.delivery < |s.deliveries| { OneDeliveryPerOrder(s, a.delivery); }
  }

  lemma EventIsTheCause(s: State, a: Action, o: OrderId)
    requires Linked(s) && o < |s.orders|
    ensures var c := CauseOf(s, a, o); EventOn(s, a, o) == if c.Handled? then Some(c.event) else None
    ensures EventOn(s, a, o).Some? && ForDelivery(EventOn(s, a, o).value) ==> LatestRow(s, o).Some?
  {
    if a.FileDispute? { FilingCause(s, a, o); }
    else if a.OnDelivery? { DeliveryCause(s, a, o); }
  }

  /** The order and its delivery after an event. */
  function OrderAfter(e: Event, v: View, o: OrderId, now: Time, window: nat): Order
    requires ForDelivery(e) ==> v.delivery.Some?
  {
    var eff := EffectOf(e, v, o, now, window);
    if eff.Some? then eff.value.order else v.order
  }

  function DeliveryAfter(e: Event, v: View, o: OrderId, now: Time, window: nat): Option<DeliveryRow>
    requires ForDelivery(e) ==> v.delivery.Some?
  {
    var eff := EffectOf(e, v, o, now, window);
    if eff.Some? then eff.value.delivery else v.delivery
  }

  /** A step leaves an order as its event does, or as it was. */
  lemma StepIsItsEvent(s: State, a: Action, o: OrderId)
    requires Consistent(s) && o < |s.orders|
    ensures o < |Step(s, a).orders|
    ensures var e, v := EventOn(s, a, o), ViewOf(s, o);
      && (e.Some? && ForDelivery(e.value) ==> v.delivery.Some?)
      && Step(s, a).orders[o] == (if e.Some? then OrderAfter(e.value, v, o, s.now, s.releaseWindow) else v.order)
      && LatestRow(Step(s, a), o)
         == (if e.Some? then DeliveryAfter(e.value, v, o, s.now, s.releaseWindow) else v.delivery)
  {
    var v := ViewOf(s, o);
    StepIsLocal(s, a);
    EventIsTheCause(s, a, o);
    assert ViewOf(Step(s, a), o) == NextView(v, o, CauseOf(s, a, o), s.now, s.releaseWindow);
  }

  // ---- The guards ----

  predicate Confirms(e: Event, order: Order) {
    && order.status.Pending?
    && ((e.ConfirmPayment? && e.caller == order.terms.buyer && e.paid && order.paymentIntent.Some?)
        || e.PaymentSucceeded?)
  }

  predicate StartsCooking(e: Event, order: Order) {
    e.StartPreparing? && e.caller == order.terms.seller && order.status.Confirmed?
  }

  predicate MakesReady(e: Event, order: Order) {
    e.MarkReady? && e.caller == order.terms.seller && order.status.Preparing?
  }

  predicate GivesUpOnDrivers(e: Event, order: Order, d: Option<DeliveryRow>) {
    && e.NoDriverTimeout? && order.status.Ready? && order.choice.Delivery?
    && (d.Some? ==> d.value.status.Searching? && d.value.driver.None?)
  }

  predicate SwitchesToPickup(e: Event, order: Order) {
    e.DecideNoDriver? && e.caller == order.terms.buyer && order.status.NoDriverAvailable? && e.switchToPickup
  }

  predicate GivesUpOrder(e: Event, order: Order) {
    && order.status.NoDriverAvailable?
    && ((e.DecideNoDriver? && e.caller == order.terms.buyer && !e.switchToPickup) || e.AutoCancelNoResponse?)
  }

  predicate BeingCooked(status: OrderStatus) {
    status.Confirmed? || status.Preparing? || status.Ready?
  }

  predicate CannotCook(e: Event, order: Order, d: Option<DeliveryRow>) {
    && e.CannotProvide? && e.caller == order.terms.seller && BeingCooked(order.status)
    && (d.Some? ==> d.value.pickupConfirmedAt.None?)
  }

  predicate FindsSellerAway(e: Event, order: Order, d: Option<DeliveryRow>) {
    && e.ReportUnavailable? && e.gps && d.Some? && d.value.driver == Some(e.driver)
    && (d.value.status.Unassigned? || d.value.status.Searching? || d.value.status.Assigned?
        || d.value.status.EnRouteToPickup? || d.value.status.AtPickup?)
    && d.value.pickupConfirmedAt.None? && d.value.sellerUnavailableAt.None?
    && !order.status.Cancelled? && !order.status.Refunded? && !order.status.Delivered? && !order.status.Completed?
  }

  predicate DriverIsGone(e: Event, order: Order, d: Option<DeliveryRow>) {
    && e.DriverTimeout? && order.status.InDelivery? && d.Some?
    && d.value.pickupConfirmedAt.Some? && d.value.deliveredConfirmedAt.None? && !d.value.deliveredAsAbsent
    && !d.value.status.Delivered? && !d.value.status.Failed? && !d.value.status.Cancelled?
  }

  predicate Claims(e: Event, d: Option<DeliveryRow>) {
    e.Claim? && e.eligible && d.Some? && d.value.status.Searching? && d.value.driver.None?
  }

  predicate Arrives(e: Event, d: Option<DeliveryRow>) {
    e.Arrive? && d.Some? && d.value.driver == Some(e.driver) && d.value.status.Assigned?
  }

  predicate CollectsFood(e: Event, d: Option<DeliveryRow>) {
    && e.PickUp? && d.Some? && d.value.driver == Some(e.driver) && d.value.pickupToken == Some(e.scanned)
    && d.value.pickupConfirmedAt.None?
    && (d.value.status.Assigned? || d.value.status.EnRouteToPickup? || d.value.status.AtPickup?)
  }

  predicate HandsOver(e: Event, d: Option<DeliveryRow>) {
    && (e.DeliverByScan? || e.DeliverAbsent?) && d.Some? && d.value.driver == Some(e.driver)
    && d.value.deliveredConfirmedAt.None?
    && (d.value.status.PickedUp? || d.value.status.EnRouteToDropoff? || d.value.status.AtDropoff?)
    && (e.DeliverByScan? ==> d.value.deliveryToken == Some(e.scanned))
    && (e.DeliverAbsent? ==> e.photo && e.gps)
  }

  predicate HandsOverAtCounter(e: Event, order: Order) {
    && e.ConfirmPickup? && (e.caller == order.terms.seller || e.caller == order.terms.buyer)
    && order.choice.Pickup? && order.status.Ready?
  }

  /** The ways to take back an order nobody has collected; its stock goes back to the shelf. */
  predicate ReturnsStock(e: Event, order: Order, d: Option<DeliveryRow>) {
    || GivesUpOrder(e, order) || CannotCook(e, order, d) || FindsSellerAway(e, order, d)
    || (e.CancelBySeller? && BeingCooked(order.status))
    || (e.PaymentFailed? && order.status.Pending?)
  }

  /** Stripe's answer to the refund an event asks for, if it asks for one. */
  function RefundAsked(e: Event, order: Order, d: Option<DeliveryRow>): Option<StripeReply> {
    if GivesUpOrder(e, order) || CannotCook(e, order, d) || FindsSellerAway(e, order, d) || DriverIsGone(e, order, d)
       || e.CancelBySeller? || e.RefundForDispute?
    then Some(e.stripe) else None
  }

  // ---- The status of an order ----

  lemma KitchenAfter(e: Event, v: View, o: OrderId, now: Time, window: nat)
    requires Legal(v.order, v.delivery, o) && (ForDelivery(e) ==> v.delivery.Some?)
    ensures var order, order' := v.order, OrderAfter(e, v, o, now, window);
      && (order'.status.Confirmed? && !order.status.Confirmed? <==> Confirms(e, order))
      && (order'.status.Preparing? && !order.status.Preparing? <==> StartsCooking(e, order))
      && (order'.status.Ready? && !order.status.Ready? <==> MakesReady(e, order) || SwitchesToPickup(e, order))
      && (order'.choice != order.choice <==> SwitchesToPickup(e, order) && order.choice.Delivery?)
  {
  }

  lemma DeliveringAfter(e: Event, v: View, o: OrderId, now: Time, window: nat)
    requires Legal(v.order, v.delivery, o) && (ForDelivery(e) ==> v.delivery.Some?)
    ensures var order, order' := v.order, OrderAfter(e, v, o, now, window);
      && (order'.status.NoDriverAvailable? && !order.status.NoDriverAvailable?
          <==> GivesUpOnDrivers(e, order, v.delivery))
      && (order'.status.InDelivery? && !order.status.InDelivery? <==> CollectsFood(e, v.delivery))
      && (order'.status.Delivered? && !order.status.Delivered?
          <==> HandsOverAtCounter(e, order) || HandsOver(e, v.delivery))
  {
  }

  predicate Ends(e: Event, v: View, order': Order) {
    && (order'.status.Cancelled? && !v.order.status.Cancelled?
        <==> ReturnsStock(e, v.order, v.delivery) || DriverIsGone(e, v.order, v.delivery))
    && (order'.status.Refunded? && !v.order.status.Refunded? <==> e.RefundForDispute? && !v.order.status.Refunded?)
    && (order'.inventoryRestored <==> v.order.inventoryRestored || ReturnsStock(e, v.order, v.delivery))
  }

  lemma EndingAfter(e: Event, v: View, o: OrderId, now: Time, window: nat)
    requires Legal(v.order, v.delivery, o) && (ForDelivery(e) ==> v.delivery.Some?)
    ensures Ends(e, v, OrderAfter(e, v, o, now, window))
  {
    if ForDelivery(e) { EndingByDriver(e, v, o, now, window); }
    else if Cancels(e) { EndingByCancel(e, v, o, now, window); }
    else { EndingByOther(e, v, o, now, window); }
  }

  lemma EndingByDriver(e: Event, v: View, o: OrderId, now: Time, window: nat)
    requires Legal(v.order, v.delivery, o) && ForDelivery(e) && v.delivery.Some?
    ensures Ends(e, v, OrderAfter(e, v, o, now, window))
  {
  }

  lemma EndingByCancel(e: Event, v: View, o: OrderId, now: Time, window: nat)
    requires Legal(v.order, v.delivery, o) && Cancels(e)
    ensures Ends(e, v, OrderAfter(e, v, o, now, window))
  {
  }

  lemma EndingByOther(e: Event, v: View, o: OrderId, now: Time, window: nat)
    requires Legal(v.order, v.delivery, o) && !ForDelivery(e) && !Cancels(e)
    ensures Ends(e, v, OrderAfter(e, v, o, now, window))
  {
  }

  // ---- Refunds ----

  predicate RefundsAsAsked(e: Event, v: View, order': Order) {
    var asked := RefundAsked(e, v.order, v.delivery);
    if asked.Some? && asked.value.Accepted? && v.order.paymentIntent.Some? && v.order.refund.None?
    then order'.refund == Some(asked.value.refundId)
    else order'.refund == v.order.refund
  }

  lemma RefundAfter(e: Event, v: View, o: OrderId, now: Time, window: nat)
    requires Legal(v.order, v.delivery, o) && (ForDelivery(e) ==> v.delivery.Some?)
    ensures RefundsAsAsked(e, v, OrderAfter(e, v, o, now, window))
  {
    if ForDelivery(e) { RefundByDriver(e, v, o, now, window); }
    else if Cancels(e) { RefundByCancel(e, v, o, now, window); }
    else { RefundByOther(e, v, o, now, window); }
  }

  lemma RefundByDriver(e: Event, v: View, o: OrderId, now: Time, window: nat)
    requires Legal(v.order, v.delivery, o) && ForDelivery(e) && v.delivery.Some?
    ensures RefundsAsAsked(e, v, OrderAfter(e, v, o, now, window))
  {
  }

  lemma RefundByCancel(e: Event, v: View, o: OrderId, now: Time, window: nat)
    requires Legal(v.order, v.delivery, o) && Cancels(e)
    ensures RefundsAsAsked(e, v, OrderAfter(e, v, o, now, window))
  {
  }

  lemma RefundByOther(e: Event, v: View, o: OrderId, now: Time, window: nat)
    requires Legal(v.order, v.delivery, o) && !ForDelivery(e) && !Cancels(e)
    ensures RefundsAsAsked(e, v, OrderAfter(e, v, o, now, window))
  {
  }

  // ---- The PaymentIntent ----

  lemma IntentAfter(e: Event, v: View, o: OrderId, now: Time, window: nat)
    requires Legal(v.order, v.delivery, o) && (ForDelivery(e) ==> v.delivery.Some?)
    ensures var order, intent' := v.order, OrderAfter(e, v, o, now, window).paymentIntent;
      if order.status.Pending? && e.PaymentSucceeded? && order.paymentIntent.None? then intent' == Some(e.intent)
      else if order.status.Pending? && e.PaymentFailed? && !e.hadIntent then intent' == Some(e.intent)
      else intent' == order.paymentIntent
  {
  }

  // ---- The delivery row ----

  /** The row an event leaves: one clause per kind of move, and no move at all without one. */
  function DeliveryNext(e: Event, order: Order, d: Option<DeliveryRow>, o: OrderId, now: Time): Option<DeliveryRow> {
    if MakesReady(e, order) && order.choice.Delivery? then
      Some(DeliveryRow(o, DeliveryStatus.Searching, None, Some(e.token), None, None, None, None, false, None))
    else if d.None? then None
    else if Claims(e, d) then Some(d.value.(status := DeliveryStatus.Assigned, driver := Some(e.driver)))
    else if Arrives(e, d) then Some(d.value.(status := DeliveryStatus.AtPickup))
    else if CollectsFood(e, d) then
      Some(d.value.(status := DeliveryStatus.PickedUp, pickupConfirmedAt := Some(now), deliveryToken := Some(e.minted)))
    else if HandsOver(e, d) then
      Some(d.value.(status := DeliveryStatus.Delivered, deliveredAt := Some(now), deliveredConfirmedAt := Some(now),
                    deliveredAsAbsent := e.DeliverAbsent?))
    else if DriverIsGone(e, order, d) then Some(d.value.(status := DeliveryStatus.Failed))
    else if FindsSellerAway(e, order, d) then
      Some(d.value.(status := DeliveryStatus.Cancelled, sellerUnavailableAt := Some(now)))
    else if SwitchesToPickup(e, order) || GivesUpOrder(e, order) || CannotCook(e, order, d) then
      Some(d.value.(status := DeliveryStatus.Cancelled))
    else d
  }

  lemma DeliveryMovesAfter(e: Event, v: View, o: OrderId, now: Time, window: nat)
    requires Legal(v.order, v.delivery, o) && (ForDelivery(e) ==> v.delivery.Some?)
    ensures DeliveryAfter(e, v, o, now, window) == DeliveryNext(e, v.order, v.delivery, o, now)
  {
    if ForDelivery(e) { DeliveryByDriver(e, v, o, now, window); } else { DeliveryByOther(e, v, o, now, window); }
  }

  lemma DeliveryByDriver(e: Event, v: View, o: OrderId, now: Time, window: nat)
    requires Legal(v.order, v.delivery, o) && ForDelivery(e) && v.delivery.Some?
    ensures DeliveryAfter(e, v, o, now, window) == DeliveryNext(e, v.order, v.delivery, o, now)
  {
  }

  lemma DeliveryByOther(e: Event, v: View, o: OrderId, now: Time, window: nat)
    requires Legal(v.order, v.delivery, o) && !ForDelivery(e)
    ensures DeliveryAfter(e, v, o, now, window) == DeliveryNext(e, v.order, v.delivery, o, now)
  {
  }

  // ---- The ledger rows ----

  /** A sale: the seller's and the driver's pay wait for the window, the commission does not. */
  function SaleRows(o: OrderId, t: Terms, driver: Option<User>, now: Time, window: nat): seq<Entry> {
    var waits := Some(now + window);
    (if t.sellerEarningsCents <= 0 then []
     else [Entry(t.seller, Some(o), OrderEarning, t.sellerEarningsCents, EntryStatus.Pending, None, waits, None,
                 NoNote)])
    + (if t.commissionCents <= 0 then []
       else [Entry(Platform, Some(o), Commission, t.commissionCents, EntryStatus.Available, None, Some(now), None,
                   NoNote)])
    + (if driver.None? || t.fulfillmentFeeCents <= 0 then []
       else [Entry(driver.value, Some(o), DeliveryEarning, t.fulfillmentFeeCents, EntryStatus.Pending, None, waits,
                   None, NoNote)])
  }

  /** The driver who came in vain gets the delivery fee at once. */
  function ConsolationRows(o: OrderId, t: Terms, driver: User, now: Time): seq<Entry> {
    if t.fulfillmentFeeCents <= 0 then []
    else [Entry(driver, Some(o), DeliveryEarning, t.fulfillmentFeeCents, EntryStatus.Available, None, Some(now), None,
                SellerUnavailable)]
  }

  predicate Sells(e: Event, v: View) {
    HandsOverAtCounter(e, v.order) || HandsOver(e, v.delivery)
  }

  function RowsOfSale(e: Event, v: View, o: OrderId, now: Time, window: nat): seq<Entry>
    requires Sells(e, v)
  {
    SaleRows(o, v.order.terms, if e.ConfirmPickup? then None else Some(e.driver), now, window)
  }

  lemma CompletionIsASale(o: OrderId, order: Order, d: Option<DeliveryRow>, now: Time, window: nat)
    requires order.status.Delivered? && (d.Some? ==> d.value.deliveredAt == Some(now))
    ensures CompletionRows(o, order, d, now, window)
         == SaleRows(o, order.terms, if order.choice.Delivery? && d.Some? then d.value.driver else None, now, window)
  {
  }

  lemma SaleBooks(e: Event, v: View, o: OrderId, now: Time, window: nat)
    requires Legal(v.order, v.delivery, o) && (ForDelivery(e) ==> v.delivery.Some?) && Sells(e, v)
    ensures Books(e)
    ensures var eff := EffectOf(e, v, o, now, window);
      eff.Some? && eff.value.booked == RowsOfSale(e, v, o, now, window)
  {
    if e.ConfirmPickup? { CounterSaleBooks(e, v, o, now, window); } else { HandOverBooks(e, v, o, now, window); }
  }

  lemma CounterSaleBooks(e: Event, v: View, o: OrderId, now: Time, window: nat)
    requires Legal(v.order, v.delivery, o) && HandsOverAtCounter(e, v.order)
    ensures var eff := EffectOf(e, v, o, now, window);
      eff.Some? && eff.value.booked == SaleRows(o, v.order.terms, None, now, window)
  {
    CompletionIsASale(o, v.order.(status := OrderStatus.Delivered), None, now, window);
  }

  lemma HandOverBooks(e: Event, v: View, o: OrderId, now: Time, window: nat)
    requires Legal(v.order, v.delivery, o) && v.delivery.Some? && HandsOver(e, v.delivery)
    ensures var eff := EffectOf(e, v, o, now, window);
      eff.Some? && eff.value.booked == SaleRows(o, v.order.terms, Some(e.driver), now, window)
  {
    CompletionIsASale(o, v.order.(status := OrderStatus.Delivered),
                      Some(HandedOver(v.delivery.value, e.DeliverAbsent?, now)), now, window);
  }

  lemma ConsolationBooks(e: Event, v: View, o: OrderId, now: Time, window: nat)
    requires Legal(v.order, v.delivery, o) && v.delivery.Some? && FindsSellerAway(e, v.order, v.delivery)
    ensures var eff := EffectOf(e, v, o, now, window);
      eff.Some? && eff.value.booked == ConsolationRows(o, v.order.terms, e.driver, now)
  {
  }

  lemma BooksOnlyThen(e: Event, v: View, o: OrderId, now: Time, window: nat)
    requires Legal(v.order, v.delivery, o) && (ForDelivery(e) ==> v.delivery.Some?)
    ensures var eff := EffectOf(e, v, o, now, window);
      eff.Some? && eff.value.booked != [] ==>
        Sells(e, v) || FindsSellerAway(e, v.order, v.delivery) || DriverIsGone(e, v.order, v.delivery)
  {
  }

  lemma FreshBooking(e: Event, v: View, o: OrderId, tariff: Tariff, now: Time, window: nat)
    requires Good(v, o, tariff, now, window) && Books(e) && (ForDelivery(e) ==> v.delivery.Some?)
    requires EffectOf(e, v, o, now, window).Some?
    ensures var eff := EffectOf(e, v, o, now, window).value; v.rows == [] && After(v, o, eff).rows == eff.booked
  {
    BookingIsFresh(e, v, o, now, window);
    var eff := EffectOf(e, v, o, now, window).value;
    var base := Reversed(v.rows, o, RefundsNow(v.order, eff.order), eff.reverseDriverPay);
    InsertAllFresh(base, eff.booked);
    assert base == [] && [] + eff.booked == eff.booked;
  }

  // ---- Over all steps of the system ----

  /** An order is confirmed, cooked and made ready exactly by these requests, of its own buyer or seller, or by
      Stripe's word that it was paid. */
  lemma PreparedExactlyWhen(s: State, a: Action, o: OrderId)
    requires Consistent(s) && o < |s.orders|
    ensures o < |Step(s, a).orders|
    ensures var e, order, order' := EventOn(s, a, o), s.orders[o], Step(s, a).orders[o];
      && (order'.status.Confirmed? && !order.status.Confirmed? <==> e.Some? && Confirms(e.value, order))
      && (order'.status.Preparing? && !order.status.Preparing? <==> e.Some? && StartsCooking(e.value, order))
      && (order'.status.Ready? && !order.status.Ready?
          <==> e.Some? && (MakesReady(e.value, order) || SwitchesToPickup(e.value, order)))
      && (order'.choice != order.choice <==> e.Some? && SwitchesToPickup(e.value, order) && order.choice.Delivery?)
  {
    StepIsItsEvent(s, a, o);
    var e := EventOn(s, a, o);
    assert Good(ViewOf(s, o), o, s.tariff, s.now, s.releaseWindow);
    if e.Some? { KitchenAfter(e.value, ViewOf(s, o), o, s.now, s.releaseWindow); }
  }

  /** An order is given up on by drivers, on its way, and delivered exactly by these events. */
  lemma DeliveredExactlyWhen(s: State, a: Action, o: OrderId)
    requires Consistent(s) && o < |s.orders|
    ensures o < |Step(s, a).orders|
    ensures var e, order, order' := EventOn(s, a, o), s.orders[o], Step(s, a).orders[o];
      var d := LatestRow(s, o);
      && (order'.status.NoDriverAvailable? && !order.status.NoDriverAvailable?
          <==> e.Some? && GivesUpOnDrivers(e.value, order, d))
      && (order'.status.InDelivery? && !order.status.InDelivery? <==> e.Some? && CollectsFood(e.value, d))
      && (order'.status.Delivered? && !order.status.Delivered?
          <==> e.Some? && (HandsOverAtCounter(e.value, order) || HandsOver(e.value, d)))
  {
    StepIsItsEvent(s, a, o);
    var e := EventOn(s, a, o);
    assert Good(ViewOf(s, o), o, s.tariff, s.now, s.releaseWindow);
    if e.Some? { DeliveringAfter(e.value, ViewOf(s, o), o, s.now, s.releaseWindow); }
  }

  /** An order is cancelled or refunded, and its stock goes back, exactly by these events: stock goes back with every
      cancellation but the one for a driver who disappeared, and never with a dispute. */
  lemma CancelledExactlyWhen(s: State, a: Action, o: OrderId)
    requires Consistent(s) && o < |s.orders|
    ensures o < |Step(s, a).orders|
    ensures var e, order, order' := EventOn(s, a, o), s.orders[o], Step(s, a).orders[o];
      var d := LatestRow(s, o);
      && (order'.status.Cancelled? && !order.status.Cancelled?
          <==> e.Some? && (ReturnsStock(e.value, order, d) || DriverIsGone(e.value, order, d)))
      && (order'.status.Refunded? && !order.status.Refunded?
          <==> e.Some? && e.value.RefundForDispute? && !order.status.Refunded?)
      && (order'.inventoryRestored <==> order.inventoryRestored || (e.Some? && ReturnsStock(e.value, order, d)))
  {
    StepIsItsEvent(s, a, o);
    var e := EventOn(s, a, o);
    assert Good(ViewOf(s, o), o, s.tariff, s.now, s.releaseWindow);
    if e.Some? { EndingAfter(e.value, ViewOf(s, o), o, s.now, s.releaseWindow); }
  }

  /** What Stripe answered to the refund a step asks for on the order, if it asks for one. */
  function AskedOn(s: State, a: Action, o: OrderId): Option<StripeReply>
    requires o < |s.orders|
  {
    var e := EventOn(s, a, o);
    if e.Some? then RefundAsked(e.value, s.orders[o], LatestRow(s, o)) else None
  }

  predicate GetsRefund(s: State, a: Action, o: OrderId)
    requires o < |s.orders|
  {
    var asked := AskedOn(s, a, o);
    asked.Some? && asked.value.Accepted? && s.orders[o].paymentIntent.Some? && s.orders[o].refund.None?
  }

  /** Over all refunding paths: a refund of the order enters Stripe's log exactly when a step that passes its guards
      asks for one, Stripe accepts, and the order was paid and not refunded before; then the order carries its id. */
  lemma RefundedExactlyWhen(s: State, a: Action, o: OrderId)
    requires Consistent(s) && o < |s.orders|
    ensures o < |Step(s, a).orders|
    ensures Step(s, a).refundLog == s.refundLog + [o] <==> GetsRefund(s, a, o)
    ensures Step(s, a).orders[o].refund
         == if GetsRefund(s, a, o) then Some(AskedOn(s, a, o).value.refundId) else s.orders[o].refund
  {
    RefundIdMoves(s, a, o);
    LogOfStep(s, a, o);
  }

  lemma RefundIdMoves(s: State, a: Action, o: OrderId)
    requires Consistent(s) && o < |s.orders|
    ensures o < |Step(s, a).orders|
    ensures Step(s, a).orders[o].refund
         == if GetsRefund(s, a, o) then Some(AskedOn(s, a, o).value.refundId) else s.orders[o].refund
    ensures CauseOf(s, a, o).Handled? || Step(s, a).orders[o].refund == s.orders[o].refund
  {
    var v, e := ViewOf(s, o), EventOn(s, a, o);
    StepIsItsEvent(s, a, o);
    EventIsTheCause(s, a, o);
    assert Good(v, o, s.tariff, s.now, s.releaseWindow);
    if e.Some? {
      RefundAfter(e.value, v, o, s.now, s.releaseWindow);
      AskedIsAsked(s, a, o, OrderAfter(e.value, v, o, s.now, s.releaseWindow));
    }
  }

  lemma AskedIsAsked(s: State, a: Action, o: OrderId, order': Order)
    requires o < |s.orders| && EventOn(s, a, o).Some?
    requires RefundsAsAsked(EventOn(s, a, o).value, ViewOf(s, o), order')
    ensures order'.refund
         == if GetsRefund(s, a, o) then Some(AskedOn(s, a, o).value.refundId) else s.orders[o].refund
  {
  }

  lemma LogOfStep(s: State, a: Action, o: OrderId)
    requires o < |s.orders| && o < |Step(s, a).orders|
    requires CauseOf(s, a, o).Handled? || Step(s, a).orders[o].refund == s.orders[o].refund
    ensures Step(s, a).refundLog == s.refundLog + [o] <==> RefundsNow(s.orders[o], Step(s, a).orders[o])
  {
    if CallOf(s, a).Some? { LogOfCall(s, a); } else { LogWithoutCall(s, a); }
    assert forall p :: s.refundLog + [p] == s.refundLog + [o] ==> (s.refundLog + [p])[|s.refundLog|] == o;
  }

  lemma LogOfCall(s: State, a: Action)
    requires CallOf(s, a).Some?
    ensures var p := CallOf(s, a).value.order;
      && |Step(s, a).orders| == |s.orders|
      && Step(s, a).refundLog
         == if RefundsNow(s.orders[p], Step(s, a).orders[p]) then s.refundLog + [p] else s.refundLog
  {
    StepRunsItsCall(s, a);
  }

  lemma LogWithoutCall(s: State, a: Action)
    requires CallOf(s, a).None?
    ensures Step(s, a).refundLog == s.refundLog
  {
    StepWithoutCall(s, a);
  }

  /** The PaymentIntent of an order is recorded by Stripe's events on a PENDING order only. */
  lemma IntentRecordedExactlyWhen(s: State, a: Action, o: OrderId)
    requires Consistent(s) && o < |s.orders|
    ensures o < |Step(s, a).orders|
    ensures var e, order := EventOn(s, a, o), s.orders[o];
      Step(s, a).orders[o].paymentIntent
      == if e.Some? && order.status.Pending?
            && ((e.value.PaymentSucceeded? && order.paymentIntent.None?)
                || (e.value.PaymentFailed? && !e.value.hadIntent))
         then Some(e.value.intent) else order.paymentIntent
  {
    StepIsItsEvent(s, a, o);
    var e := EventOn(s, a, o);
    assert Good(ViewOf(s, o), o, s.tariff, s.now, s.releaseWindow);
    if e.Some? { IntentAfter(e.value, ViewOf(s, o), o, s.now, s.releaseWindow); }
  }

  /** The delivery of an order appears, is claimed, collected, handed over, cancelled or given up exactly by these
      events, of the driver who holds it and with the token of the row, and otherwise stays as it is. */
  lemma DeliveryMovesExactly(s: State, a: Action, o: OrderId)
    requires Consistent(s) && o < |s.orders|
    ensures o < |Step(s, a).orders|
    ensures var e, d := EventOn(s, a, o), LatestRow(s, o);
      LatestRow(Step(s, a), o) == if e.Some? then DeliveryNext(e.value, s.orders[o], d, o, s.now) else d
  {
    StepIsItsEvent(s, a, o);
    var e := EventOn(s, a, o);
    assert Good(ViewOf(s, o), o, s.tariff, s.now, s.releaseWindow);
    if e.Some? { DeliveryMovesAfter(e.value, ViewOf(s, o), o, s.now, s.releaseWindow); }
  }

  /** Handing over the food books the sale, exactly once and nothing else: until then the order had no ledger row. */
  lemma SaleIsBooked(s: State, a: Action, o: OrderId)
    requires Consistent(s) && o < |s.orders|
    requires EventOn(s, a, o).Some? && Sells(EventOn(s, a, o).value, ViewOf(s, o))
    ensures Rows(s.entries, o) == []
    ensures Rows(Step(s, a).entries, o) == RowsOfSale(EventOn(s, a, o).value, ViewOf(s, o), o, s.now, s.releaseWindow)
  {
    var v, e := ViewOf(s, o), EventOn(s, a, o).value;
    StepIsLocal(s, a);
    EventIsTheCause(s, a, o);
    assert Good(v, o, s.tariff, s.now, s.releaseWindow);
    SaleBooks(e, v, o, s.now, s.releaseWindow);
    FreshBooking(e, v, o, s.tariff, s.now, s.releaseWindow);
    assert ViewOf(Step(s, a), o) == NextView(v, o, Handled(e), s.now, s.releaseWindow);
  }

  /** A driver who reports an absent seller is paid the delivery fee at once. */
  lemma ConsolationIsBooked(s: State, a: Action, o: OrderId)
    requires Consistent(s) && o < |s.orders|
    requires EventOn(s, a, o).Some? && FindsSellerAway(EventOn(s, a, o).value, s.orders[o], LatestRow(s, o))
    ensures Rows(s.entries, o) == []
    ensures Rows(Step(s, a).entries, o)
         == ConsolationRows(o, s.orders[o].terms, EventOn(s, a, o).value.driver, s.now)
  {
    var v, e := ViewOf(s, o), EventOn(s, a, o).value;
    StepIsLocal(s, a);
    EventIsTheCause(s, a, o);
    assert Good(v, o, s.tariff, s.now, s.releaseWindow);
    ConsolationBooks(e, v, o, s.now, s.releaseWindow);
    FreshBooking(e, v, o, s.tariff, s.now, s.releaseWindow);
    assert ViewOf(Step(s, a), o) == NextView(v, o, Handled(e), s.now, s.releaseWindow);
  }

  /** Nothing else books: with any other event, the order keeps the rows it has, their owners and amounts included. */
  lemma LedgerGrowsOnlyThen(s: State, a: Action, o: OrderId)
    requires Consistent(s) && o < |s.orders|
    ensures o < |Step(s, a).orders|
    ensures var e := EventOn(s, a, o);
      Identities(Rows(Step(s, a).entries, o)) != Identities(Rows(s.entries, o)) ==>
        && e.Some?
        && (Sells(e.value, ViewOf(s, o)) || FindsSellerAway(e.value, s.orders[o], LatestRow(s, o))
            || DriverIsGone(e.value, s.orders[o], LatestRow(s, o)))
  {
    var v, c := ViewOf(s, o), CauseOf(s, a, o);
    StepIsLocal(s, a);
    EventIsTheCause(s, a, o);
    assert Good(v, o, s.tariff, s.now, s.releaseWindow);
    assert ViewOf(Step(s, a), o) == NextView(v, o, c, s.now, s.releaseWindow);
    match c
    case Untouched =>
    case Bulk(u) => UpdateKeepsIdentities(u, v.rows);
    case Handled(e) => GrowsOnlyThen(v, o, e, s.tariff, s.now, s.releaseWindow);
  }

  lemma GrowsOnlyThen(v: View, o: OrderId, e: Event, tariff: Tariff, now: Time, window: nat)
    requires Good(v, o, tariff, now, window) && (ForDelivery(e) ==> v.delivery.Some?)
    ensures Identities(NextView(v, o, Handled(e), now, window).rows) != Identities(v.rows) ==>
      Sells(e, v) || FindsSellerAway(e, v.order, v.delivery) || DriverIsGone(e, v.order, v.delivery)
  {
    var eff := EffectOf(e, v, o, now, window);
    BooksOnlyThen(e, v, o, now, window);
    if eff.Some? && eff.value.booked == [] {
      ReversedKeeps(v.rows, o, RefundsNow(v.order, eff.value.order), eff.value.reverseDriverPay, v.delivery, now,
                    window);
    }
  }

  // ---- Who may ask ----

  /** A request about an order by somebody who has no part in that step. */
  predicate Intrudes(s: State, a: Action) {
    match a
    case OnOrder(o, e) =>
      && o < |s.orders|
      && var t := s.orders[o].terms;
         || ((e.StartPreparing? || e.MarkReady? || e.CannotProvide?) && e.caller != t.seller)
         || ((e.ConfirmPayment? || e.DecideNoDriver?) && e.caller != t.buyer)
         || (e.ConfirmPickup? && e.caller != t.seller && e.caller != t.buyer)
    case BeginCancel(o, caller) => o < |s.orders| && caller != s.orders[o].terms.seller
    case FileDispute(o, caller, _, _, _, _) => o < |s.orders| && caller != s.orders[o].terms.buyer
    case OnDelivery(d, e) =>
      && d < |s.deliveries| && s.deliveries[d].order < |s.orders|
      && (e.Arrive? || e.PickUp? || e.DeliverByScan? || e.DeliverAbsent? || e.ReportUnavailable?)
      && s.deliveries[d].driver != Some(e.driver)
    case _ => false
  }

  /** Whatever else is wrong with it, such a request is forbidden and changes nothing at all. */
  lemma IntrudersAreForbidden(s: State, a: Action)
    requires Intrudes(s, a)
    ensures Handle(s, a) == Reply(s, Outcome.Failed(Forbidden))
  {
    if a.OnOrder? { OrderIntruders(s, a.order, a.event); }
    else if a.OnDelivery? { DeliveryIntruders(s, a.delivery, a.event); }
  }

  lemma OrderIntruders(s: State, o: OrderId, e: Event)
    requires Intrudes(s, OnOrder(o, e))
    ensures Handle(s, OnOrder(o, e)) == Reply(s, Outcome.Failed(Forbidden))
  {
  }

  lemma DeliveryIntruders(s: State, d: DeliveryId, e: Event)
    requires Intrudes(s, OnDelivery(d, e))
    ensures Handle(s, OnDelivery(d, e)) == Reply(s, Outcome.Failed(Forbidden))
  {
  }

  // ---- Requests in flight ----

  /** A seller's cancel is under way exactly after its own seller asked for it while the food was being cooked, and
      one commit ends one request. */
  lemma CancelsBeginExactlyWhen(s: State, a: Action)
    ensures Step(s, a).cancelsInFlight
         == if a.BeginCancel? && a.order < |s.orders| && a.caller == s.orders[a.order].terms.seller
               && BeingCooked(s.orders[a.order].status)
            then s.cancelsInFlight + multiset{a.order}
            else if a.CommitCancel? && a.order < |s.orders| then s.cancelsInFlight - multiset{a.order}
            else s.cancelsInFlight
  {
  }

  /** A failed payment is under way exactly after Stripe reported it on a PENDING order. */
  lemma FailuresBeginExactlyWhen(s: State, a: Action)
    ensures Step(s, a).failuresInFlight
         == if a.BeginFailure? && a.order < |s.orders| && s.orders[a.order].status.Pending?
            then s.failuresInFlight
                 + multiset{FailureInFlight(a.order, a.intent, s.orders[a.order].paymentIntent.Some?)}
            else if a.CommitFailure? && a.failure.order < |s.orders| then s.failuresInFlight - multiset{a.failure}
            else s.failuresInFlight
  {
  }
}
