/** The transition system: every request, webhook, timer firing and sweep as one step on the shared state. */
module Marketplace {
  import opened Domain
  import opened Pricing
  import opened Inventory
  import opened Ledger
  import opened Lifecycle

  const WITHDRAWAL_MIN_CENTS := 5000
  const CLAIM_WINDOW := 24 * 60 * 60 * 1000

  /** What became of the PaymentIntent of a new order: Stripe refused, the id was lost, or it was recorded. */
  datatype Intent = NoIntent | Unrecorded | Recorded(id: nat)

  /** `gate` is the outcome of the checks on data outside this model (buyer profile and terms, seller approval and
      subscription, scheduling, address, Stripe customer), all made before anything is written. */
  datatype Placement = Placement(
    buyer: User,
    cart: seq<CartLine>,
    choice: Fulfillment,
    gate: Option<Error>,
    isPremium: bool,
    intent: Intent)

  datatype Action =
    | Tick(elapsed: nat)
    | EditListing(listing: ListingId, row: Listing)
    | PlaceOrder(placement: Placement)
    | OnOrder(order: OrderId, event: Event)
    | OnDelivery(delivery: DeliveryId, event: Event)
    | BeginCancel(order: OrderId, caller: User)
    | CommitCancel(order: OrderId, stripe: StripeReply)
    | BeginFailure(order: OrderId, intent: nat)
    | CommitFailure(failure: FailureInFlight)
    | FileDispute(order: OrderId, caller: User, kind: DisputeKind, proof: bool, description: bool, stripe: StripeReply)
    | ChargeDispute(order: OrderId, stripeDispute: StripeDispute)
    | ApproveDispute(dispute: nat, stripe: StripeReply)
    | CloseDispute(dispute: nat, reject: bool)
    | Sweep
    | Withdraw(user: User, payoutReady: bool, transferred: bool)

  datatype Reply = Reply(state: State, outcome: Outcome)

  // ---- Applying an effect on one order ----

  predicate RefundsNow(before: Order, after: Order) {
    before.refund.None? && after.refund.Some?
  }

  predicate RestocksNow(before: Order, after: Order) {
    !before.inventoryRestored && after.inventoryRestored
  }

  function WriteDelivery(deliveries: seq<DeliveryRow>, d: Option<DeliveryId>,
                         row: Option<DeliveryRow>): seq<DeliveryRow>
    requires d.Some? ==> d.value < |deliveries|
  {
    if row.None? then deliveries
    else if d.Some? then deliveries[d.value := row.value]
    else deliveries + [row.value]
  }

  /** PENDING rows of a refunded order are reversed; a disappeared driver's delivery earning is too. */
  function Reversed(entries: seq<Entry>, o: OrderId, refundsNow: bool, reverseDriverPay: bool): seq<Entry> {
    var es := if reverseDriverPay then Update(Reverse(o, true), entries) else entries;
    if refundsNow then Update(Reverse(o, false), es) else es
  }

  /** Writes the rows; setting the restored flag returns the stock, setting the refund id is a Stripe refund. */
  function Apply(s: State, o: OrderId, d: Option<DeliveryId>, eff: Effect): State
    requires o < |s.orders|
    requires d.Some? ==> d.value < |s.deliveries|
  {
    var before := s.orders[o];
    s.(orders := s.orders[o := eff.order],
       deliveries := WriteDelivery(s.deliveries, d, eff.delivery),
       listings := if RestocksNow(before, eff.order) then Restocked(s.listings, before.terms.items) else s.listings,
       entries := InsertAll(Reversed(s.entries, o, RefundsNow(before, eff.order), eff.reverseDriverPay), eff.booked),
       refundLog := if RefundsNow(before, eff.order) then s.refundLog + [o] else s.refundLog)
  }

  function LocalAt(s: State, o: OrderId, d: Option<DeliveryId>): Local
    requires o < |s.orders|
    requires d.Some? ==> d.value < |s.deliveries|
  {
    Local(s.orders[o], if d.Some? then Some(s.deliveries[d.value]) else None)
  }

  function Perform(s: State, o: OrderId, d: Option<DeliveryId>, e: Event): Reply
    requires o < |s.orders|
    requires d.Some? ==> d.value < |s.deliveries|
    requires ForDelivery(e) ==> d.Some?
  {
    var v := Decide(e, o, LocalAt(s, o, d), s.now, s.releaseWindow);
    Reply(if v.effect.Some? then Apply(s, o, d, v.effect.value) else s, v.outcome)
  }

  /** The delivery row an order-level handler works on: the latest one; marking ready always inserts a new row. */
  function DeliveryFor(s: State, o: OrderId, e: Event): (d: Option<DeliveryId>)
    ensures d.Some? ==> d.value < |s.deliveries|
  {
    if e.MarkReady? then None else LatestDelivery(s.deliveries, o)
  }

  // ---- Placing an order ----

  predicate Serves(listing: Listing, choice: Fulfillment) {
    match choice
    case Delivery => !listing.fulfillment.OnlyPickup?
    case Pickup => !listing.fulfillment.OnlyDelivery?
  }

  predicate ValidCart(listings: Listings, cart: seq<CartLine>, choice: Fulfillment) {
    && |cart| > 0
    && (forall i :: 0 <= i < |cart| ==> cart[i].listing in listings)
    && forall i :: 0 <= i < |cart| ==>
         && listings[cart[i].listing].seller == listings[cart[0].listing].seller
         && listings[cart[i].listing].orderable
         && Serves(listings[cart[i].listing], choice)
         && forall k :: 0 <= k < |cart[i].addOns| ==> cart[i].addOns[k] in listings[cart[i].listing].addOns
  }

  function AddOnPrices(prices: map<AddOnId, int>, addOns: seq<AddOnId>): (r: seq<int>)
    requires forall k :: 0 <= k < |addOns| ==> addOns[k] in prices
    ensures |r| == |addOns|
  {
    seq(|addOns|, k requires 0 <= k < |addOns| => prices[addOns[k]])
  }

  function Snapshots(listings: Listings, cart: seq<CartLine>, choice: Fulfillment): (items: seq<OrderItem>)
    requires ValidCart(listings, cart, choice)
    ensures |items| == |cart|
    ensures forall i :: 0 <= i < |items| ==> items[i].listing == cart[i].listing
  {
    seq(|cart|, i requires 0 <= i < |cart| =>
      var l := listings[cart[i].listing];
      OrderItem(cart[i].listing, cart[i].quantity, l.priceCents, AddOnPrices(l.addOns, cart[i].addOns)))
  }

  function Total(cents: seq<int>): int {
    if cents == [] then 0 else Total(cents[..|cents| - 1]) + cents[|cents| - 1]
  }

  /** `OrderItemResponseDto.from`: the line total recomputed from the stored snapshots. */
  function LineTotal(item: OrderItem): int {
    (item.unitPriceCents + Total(item.addOnCents)) * item.quantity
  }

  function Subtotal(items: seq<OrderItem>): int {
    if items == [] then 0 else Subtotal(items[..|items| - 1]) + LineTotal(items[|items| - 1])
  }

  function NewOrder(p: Placement, seller: User, items: seq<OrderItem>, totals: OrderTotals): Order {
    Order(Terms(p.buyer, seller, items, totals.subtotalCents, totals.fulfillmentFeeCents, totals.commissionRateBps,
                totals.commissionCents, totals.sellerEarningsCents, totals.buyerTotalCents),
          OrderStatus.Pending, p.choice, false, if p.intent.Recorded? then Some(p.intent.id) else None, None)
  }

  /** The order of a valid cart, at the prices of the moment. */
  function OrderFor(listings: Listings, p: Placement, tariff: Tariff): Order
    requires ValidCart(listings, p.cart, p.choice)
  {
    var items := Snapshots(listings, p.cart, p.choice);
    NewOrder(p, listings[p.cart[0].listing].seller, items,
             PriceOrder(Subtotal(items), p.isPremium, p.choice.Delivery?, tariff))
  }

  /** A refused PaymentIntent is reported to the buyer after the order and its stock were committed. */
  function Place(s: State, p: Placement): Reply {
    if p.gate.Some? then Reply(s, Outcome.Failed(p.gate.value))
    else if !ValidCart(s.listings, p.cart, p.choice) then Reply(s, Outcome.Failed(BadRequest))
    else
      var items := Snapshots(s.listings, p.cart, p.choice);
      if !CanTake(s.listings, items) then Reply(s, Outcome.Failed(Conflict))
      else
        Reply(s.(orders := s.orders + [OrderFor(s.listings, p, s.tariff)], listings := Taken(s.listings, items)),
              if p.intent.NoIntent? then Outcome.Failed(Unavailable) else Done)
  }

  // ---- Sellers editing stock ----

  /** A seller who sets the stock of a listing supplies the difference; one who starts tracking supplies the
      declared portions on top of what orders still hold. */
  function Supplied(s: State, l: ListingId, row: Listing): map<ListingId, int> {
    if row.portionsLeft.None? then s.supplied
    else if l in s.listings && s.listings[l].portionsLeft.Some? && l in s.supplied
    then s.supplied[l := s.supplied[l] + row.portionsLeft.value - s.listings[l].portionsLeft.value]
    else s.supplied[l := row.portionsLeft.value + HeldByOrders(s.orders, l)]
  }

  // ---- Disputes ----

  /** The decision table of `createDispute`: the status given, and whether the order is refunded at once. */
  function DisputeDecision(kind: DisputeKind, d: Option<DeliveryRow>): (DisputeStatus, bool) {
    match kind
    case Subjective => (Rejected, false)
    case NeverReceived =>
      if d.Some? && (d.value.deliveredConfirmedAt.Some? || d.value.deliveredAsAbsent)
      then (AdminReview, false) else (AutoRefunded, true)
    case WrongOrder => (AutoRefunded, true)
    case _ => (AdminReview, false)
  }

  predicate OpenDispute(disputes: seq<Dispute>, o: OrderId, kind: DisputeKind) {
    exists i :: 0 <= i < |disputes| && disputes[i].order == o && disputes[i].kind == kind
                && (disputes[i].status.Open? || disputes[i].status.AdminReview?)
  }

  function LatestRow(s: State, o: OrderId): Option<DeliveryRow>
    requires o < |s.orders|
  {
    LocalAt(s, o, LatestDelivery(s.deliveries, o)).delivery
  }

  function FilingError(s: State, o: OrderId, caller: User, kind: DisputeKind, proof: bool,
                       description: bool): Option<Error>
    requires o < |s.orders|
  {
    var order := s.orders[o];
    var d := LatestRow(s, o);
    if order.terms.buyer != caller then Some(Forbidden)
    else if order.status.Pending? then Some(BadRequest)
    else if Payable(order.status) && d.Some? && d.value.deliveredAt.Some?
            && s.now - d.value.deliveredAt.value > CLAIM_WINDOW then Some(BadRequest)
    else if kind.FoodPoisoning? && !proof then Some(BadRequest)
    else if kind.FalseAllergens? && !description then Some(BadRequest)
    else if OpenDispute(s.disputes, o, kind) then Some(Conflict)
    else if kind.Chargeback? then Some(BadRequest)
    else None
  }

  /** Allergen reports and subjective complaints ask for no refund. */
  predicate AsksRefund(kind: DisputeKind) {
    !kind.Subjective? && !kind.FalseAllergens?
  }

  /** The state with the new dispute in it; a refund granted at once is of the whole total. */
  function Filed(s: State, o: OrderId, kind: DisputeKind): State
    requires o < |s.orders|
  {
    var (status, refund) := DisputeDecision(kind, LatestRow(s, o));
    var granted := if refund then Some(s.orders[o].terms.buyerTotalCents) else None;
    s.(disputes := s.disputes + [Dispute(o, kind, status, AsksRefund(kind), granted, None)])
  }

  function File(s: State, o: OrderId, caller: User, kind: DisputeKind, proof: bool, description: bool,
                stripe: StripeReply): Reply
    requires o < |s.orders|
  {
    var error := FilingError(s, o, caller, kind, proof, description);
    if error.Some? then Reply(s, Outcome.Failed(error.value))
    else
      var s' := Filed(s, o, kind);
      if DisputeDecision(kind, LatestRow(s, o)).1
      then Perform(s', o, LatestDelivery(s.deliveries, o), RefundForDispute(stripe)) else Reply(s', Done)
  }

  predicate IsStripeDispute(d: Dispute, id: nat) {
    d.stripe.Some? && d.stripe.value.id == id
  }

  /** The row of a Stripe dispute, by its unique id. */
  function FindStripeDispute(disputes: seq<Dispute>, id: nat): (i: Option<nat>)
    ensures i.Some? ==> i.value < |disputes| && IsStripeDispute(disputes[i.value], id)
    ensures i.None? ==> forall k :: 0 <= k < |disputes| ==> !IsStripeDispute(disputes[k], id)
  {
    if disputes == [] then None
    else
      var n := |disputes| - 1;
      var earlier := FindStripeDispute(disputes[..n], id);
      if earlier.Some? then earlier else if IsStripeDispute(disputes[n], id) then Some(n) else None
  }

  /** A known dispute gets the new payload only; a new one goes to an admin. */
  function Charged(disputes: seq<Dispute>, o: OrderId, stripeDispute: StripeDispute): seq<Dispute> {
    var known := FindStripeDispute(disputes, stripeDispute.id);
    if known.Some? then disputes[known.value := disputes[known.value].(stripe := Some(stripeDispute))]
    else disputes + [Dispute(o, Chargeback, AdminReview, false, None, Some(stripeDispute))]
  }

  function Approve(s: State, i: nat, stripe: StripeReply): Reply
    requires i < |s.disputes| && s.disputes[i].order < |s.orders|
  {
    var o := s.disputes[i].order;
    var s' := Perform(s, o, LatestDelivery(s.deliveries, o), RefundForDispute(stripe)).state;
    Reply(s'.(disputes := s.disputes[i := Granted(s.disputes[i], s.orders[o].terms.buyerTotalCents)]), Done)
  }

  function Granted(d: Dispute, totalCents: int): Dispute {
    d.(status := Resolved, refundCents := Some(d.refundCents.GetOr(totalCents)))
  }

  // ---- Withdrawals ----

  function WithdrawalRow(user: User, w: nat, total: int): Entry {
    Entry(user, None, Withdrawal, -total, EntryStatus.PaidOut, Some(w), None, None, Transfer)
  }

  /** The platform account has no user row. */
  function Payout(s: State, user: User, payoutReady: bool, transferred: bool): Reply {
    var total := Sum(s.entries, InStatus(user, EntryStatus.Available));
    var w := |s.transferLog|;
    if user.Platform? then Reply(s, Outcome.Failed(NotFound))
    else if total < 0 then Reply(s, Outcome.Failed(BadRequest))
    else if total < WITHDRAWAL_MIN_CENTS then Reply(s, Outcome.Failed(BadRequest))
    else if !payoutReady then Reply(s, Outcome.Failed(Forbidden))
    else if !transferred then Reply(s, Outcome.Failed(BadRequest))
    else Reply(s.(entries := Update(Settle(user, w), s.entries) + [WithdrawalRow(user, w, total)],
                  transferLog := s.transferLog + [TransferRecord(user, total)]), Done)
  }

  // ---- One step ----

  function Handle(s: State, a: Action): Reply {
    match a
    case Tick(elapsed) => Reply(s.(now := s.now + elapsed), Done)
    case EditListing(l, row) => Reply(s.(listings := s.listings[l := row], supplied := Supplied(s, l, row)), Done)
    case PlaceOrder(p) => Place(s, p)
    case OnOrder(o, e) =>
      if o >= |s.orders| then Reply(s, if IsTimerOrWebhook(e) then Skipped else Outcome.Failed(NotFound))
      else if ForDelivery(e) || Internal(e) then Reply(s, Skipped)
      else Perform(s, o, DeliveryFor(s, o, e), e)
    case OnDelivery(d, e) =>
      if !ForDelivery(e) then Reply(s, Skipped)
      else if d >= |s.deliveries| || s.deliveries[d].order >= |s.orders|
      then Reply(s, MissingDelivery(e))
      else Perform(s, s.deliveries[d].order, Some(d), e)
    case BeginCancel(o, caller) =>
      if o >= |s.orders| then Reply(s, Outcome.Failed(NotFound))
      else if s.orders[o].terms.seller != caller then Reply(s, Outcome.Failed(Forbidden))
      else if !SellerCancellable(s.orders[o].status) then Reply(s, Outcome.Failed(Conflict))
      else Reply(s.(cancelsInFlight := s.cancelsInFlight + multiset{o}), Done)
    case CommitCancel(o, stripe) =>
      if o !in s.cancelsInFlight || o >= |s.orders| then Reply(s, Skipped)
      else
        var s' := s.(cancelsInFlight := s.cancelsInFlight - multiset{o});
        Perform(s', o, LatestDelivery(s.deliveries, o), CancelBySeller(stripe))
    case BeginFailure(o, intent) =>
      if o >= |s.orders| || !s.orders[o].status.Pending? then Reply(s, Skipped)
      else
        var f := FailureInFlight(o, intent, s.orders[o].paymentIntent.Some?);
        Reply(s.(failuresInFlight := s.failuresInFlight + multiset{f}), Done)
    case CommitFailure(f) =>
      if f !in s.failuresInFlight || f.order >= |s.orders| then Reply(s, Skipped)
      else
        var s' := s.(failuresInFlight := s.failuresInFlight - multiset{f});
        Perform(s', f.order, LatestDelivery(s.deliveries, f.order), PaymentFailed(f.intent, f.hadIntent))
    case FileDispute(o, caller, kind, proof, description, stripe) =>
      if o >= |s.orders| then Reply(s, Outcome.Failed(NotFound))
      else File(s, o, caller, kind, proof, description, stripe)
    case ChargeDispute(o, stripeDispute) =>
      if o >= |s.orders| then Reply(s, Skipped)
      else Reply(s.(disputes := Charged(s.disputes, o, stripeDispute)), Done)
    case ApproveDispute(i, stripe) =>
      if i >= |s.disputes| || s.disputes[i].order >= |s.orders| then Reply(s, Outcome.Failed(NotFound))
      else Approve(s, i, stripe)
    case CloseDispute(i, reject) =>
      if i >= |s.disputes| then Reply(s, Outcome.Failed(NotFound))
      else Reply(s.(disputes := s.disputes[i := s.disputes[i].(status := if reject then Rejected else Resolved)]), Done)
    case Sweep => Reply(s.(entries := Update(Release(s.now, s.orders), s.entries)), Done)
    case Withdraw(user, payoutReady, transferred) => Payout(s, user, payoutReady, transferred)
  }

  predicate IsTimerOrWebhook(e: Event) {
    e.NoDriverTimeout? || e.AutoCancelNoResponse? || e.PaymentSucceeded?
  }

  /** Events that only run inside another action. */
  predicate Internal(e: Event) {
    e.CancelBySeller? || e.PaymentFailed? || e.RefundForDispute?
  }

  function MissingDelivery(e: Event): Outcome {
    match e
    case Claim(_, eligible) => Outcome.Failed(if eligible then Conflict else Forbidden)
    case DriverTimeout(_) => Skipped
    case _ => Outcome.Failed(NotFound)
  }

  function Step(s: State, a: Action): State {
    Handle(s, a).state
  }

  function Run(s: State, actions: seq<Action>): State {
    if actions == [] then s else Step(Run(s, actions[..|actions| - 1]), actions[|actions| - 1])
  }

  // ---- The view of one order ----

  /** Everything the state knows about one order. */
  datatype View = View(order: Order, delivery: Option<DeliveryRow>, rows: seq<Entry>, refunds: nat)

  function Refunds(log: seq<OrderId>, o: OrderId): nat {
    if log == [] then 0
    else Refunds(log[..|log| - 1], o) + if log[|log| - 1] == o then 1 else 0
  }

  function ViewOf(s: State, o: OrderId): View
    requires o < |s.orders|
  {
    View(s.orders[o], LatestRow(s, o), Rows(s.entries, o), Refunds(s.refundLog, o))
  }
}
