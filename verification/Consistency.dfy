/** The invariant of one order's view, and the proof that every handler keeps it. */
module Consistency {
  import opened Domain
  import opened Pricing
  import opened Ledger
  import opened Lifecycle
  import opened Marketplace

  // ---- Delivery rows ----

  predicate BeforePickup(status: DeliveryStatus) {
    status.Searching? || status.Assigned? || status.AtPickup?
  }

  predicate Live(d: Option<DeliveryRow>) {
    d.Some? && (BeforePickup(d.value.status) || d.value.status.PickedUp?)
  }

  predicate DeliveryOk(d: DeliveryRow) {
    && (BeforePickup(d.status) || d.status.PickedUp? || d.status.Delivered? || d.status.Cancelled? || d.status.Failed?)
    && (d.status.Searching? ==> d.driver.None?)
    && (d.driver.None? ==> d.status.Searching? || d.status.Cancelled?)
    && d.pickupToken.Some?
    && (d.pickupConfirmedAt.Some? <==> d.status.PickedUp? || d.status.Delivered? || d.status.Failed?)
    && (d.deliveryToken.Some? <==> d.pickupConfirmedAt.Some?)
    && (d.deliveredAt.Some? <==> d.status.Delivered?)
    && d.deliveredConfirmedAt == d.deliveredAt
    && (d.deliveredAsAbsent ==> d.status.Delivered?)
    && (d.sellerUnavailableAt.Some? ==> d.status.Cancelled? && d.driver.Some?)
  }

  // ---- Which (order, delivery) pairs are legal ----

  predicate Coupled(order: Order, d: Option<DeliveryRow>) {
    && (d.Some? ==> DeliveryOk(d.value))
    && (order.choice.Pickup? ==> d.None? || d.value.status.Cancelled?)
    && match order.status
       case Pending => d.None?
       case Confirmed => d.None?
       case Preparing => d.None?
       case Ready =>
         if order.choice.Delivery? then d.Some? && BeforePickup(d.value.status)
         else d.None? || d.value.sellerUnavailableAt.None?
       case NoDriverAvailable => order.choice.Delivery? && d.Some? && BeforePickup(d.value.status)
       case InDelivery => d.Some? && d.value.status.PickedUp?
       case Delivered =>
         if order.choice.Delivery? then d.Some? && d.value.status.Delivered?
         else d.None? || d.value.sellerUnavailableAt.None?
       case Cancelled => d.Some? ==> !d.value.status.PickedUp? && !d.value.status.Delivered?
       case Refunded => true
       case PickedUp => false
       case Completed => false
       case Disputed => false
  }

  // ---- Prices ----

  predicate Priced(order: Order, tariff: Tariff) {
    var t := order.terms;
    && t.subtotalCents == Subtotal(t.items)
    && (t.fulfillmentFeeCents == 0 || t.fulfillmentFeeCents == tariff.deliveryFeeCents)
    && (order.choice.Delivery? ==> t.fulfillmentFeeCents == tariff.deliveryFeeCents)
    && (t.commissionRateBps == COMMISSION_RATE_BPS_STANDARD || t.commissionRateBps == COMMISSION_RATE_BPS_PREMIUM)
    && t.commissionCents == Max(RoundBps(t.subtotalCents, t.commissionRateBps), COMMISSION_MIN_CENTS)
    && t.sellerEarningsCents == t.subtotalCents - t.commissionCents
    && t.buyerTotalCents == t.subtotalCents + t.fulfillmentFeeCents
                            + RoundBps(t.subtotalCents + t.fulfillmentFeeCents, tariff.platformBuyerFeeBps)
  }

  /** Once past PENDING and not voided, or once it has a delivery, an order has a PaymentIntent. */
  predicate Paid(order: Order, d: Option<DeliveryRow>) {
    (!order.status.Pending? && !Voided(order.status)) || d.Some? ==> order.paymentIntent.Some?
  }

  // ---- The ledger rows of an order ----

  /** What never changes in a row, apart from its schedule. */
  datatype Identity = Identity(user: User, kind: EntryKind, amountCents: int, note: EntryNote)

  function IdentityOf(e: Entry): Identity {
    Identity(e.user, e.kind, e.amountCents, e.note)
  }

  function Identities(rows: seq<Entry>): (r: seq<Identity>)
    ensures |r| == |rows|
  {
    seq(|rows|, i requires 0 <= i < |rows| => IdentityOf(rows[i]))
  }

  function When(condition: bool, id: Identity): seq<Identity> {
    if condition then [id] else []
  }

  /** Seller, platform and, for a delivered delivery, driver. */
  function CompletionIds(order: Order, d: Option<DeliveryRow>): seq<Identity> {
    var t := order.terms;
    When(t.sellerEarningsCents > 0, Identity(t.seller, OrderEarning, t.sellerEarningsCents, NoNote))
    + When(t.commissionCents > 0, Identity(Platform, Commission, t.commissionCents, NoNote))
    + if order.choice.Delivery? && d.Some? && d.value.driver.Some?
      then When(t.fulfillmentFeeCents > 0,
                Identity(d.value.driver.value, DeliveryEarning, t.fulfillmentFeeCents, NoNote))
      else []
  }

  function CompensationIds(order: Order, d: DeliveryRow): seq<Identity> {
    var fee := order.terms.fulfillmentFeeCents;
    if d.driver.None? then [] else When(fee > 0, Identity(d.driver.value, DeliveryEarning, fee, SellerUnavailable))
  }

  function DisappearanceIds(order: Order, d: DeliveryRow): seq<Identity> {
    var t := order.terms;
    When(t.sellerEarningsCents > 0, Identity(t.seller, OrderEarning, t.sellerEarningsCents, DriverDisappeared))
    + if d.driver.None? then []
      else When(t.buyerTotalCents > 0, Identity(d.driver.value, DriverDebt, -t.buyerTotalCents, Clawback))
  }

  /** The rows an order has, decided by where its delivery and status stand. Only a refunded pickup order leaves a
      choice: refunded before or after it was handed over. */
  predicate Booked(order: Order, d: Option<DeliveryRow>, rows: seq<Entry>) {
    var ids := Identities(rows);
    if d.Some? && d.value.status.Failed? then ids == DisappearanceIds(order, d.value)
    else if d.Some? && d.value.sellerUnavailableAt.Some? then ids == CompensationIds(order, d.value)
    else if order.status.Delivered? || (d.Some? && d.value.status.Delivered?) then ids == CompletionIds(order, d)
    else if order.status.Refunded? && order.choice.Pickup? then ids == [] || ids == CompletionIds(order, d)
    else ids == []
  }

  /** Where a row is in its life: earnings of a completed order wait for the release window, everything else is
      available at once; nothing is ever HELD. */
  predicate RowOk(e: Entry, d: Option<DeliveryRow>, now: Time, window: nat) {
    && !e.status.Held?
    && !e.kind.Withdrawal?
    && (e.note.NoNote? && !e.kind.Commission? ==>
          && e.availableAt.Some?
          && (d.Some? && d.value.deliveredAt.Some? ==> e.availableAt.value == d.value.deliveredAt.value + window)
          && (e.status.Available? || e.status.PaidOut? ==>
                e.releasedAt.Some? && e.availableAt.value <= e.releasedAt.value <= now))
    && (!e.note.NoNote? || e.kind.Commission? ==> e.status.Available? || e.status.PaidOut?)
  }

  predicate RowsOk(rows: seq<Entry>, d: Option<DeliveryRow>, now: Time, window: nat) {
    forall i :: 0 <= i < |rows| ==> RowOk(rows[i], d, now, window)
  }

  // ---- The invariant of a view ----

  predicate Legal(order: Order, d: Option<DeliveryRow>, o: OrderId) {
    (d.Some? ==> d.value.order == o) && Paid(order, d) && Coupled(order, d)
  }

  predicate Good(v: View, o: OrderId, tariff: Tariff, now: Time, window: nat) {
    && Priced(v.order, tariff)
    && Legal(v.order, v.delivery, o)
    && (forall i :: 0 <= i < |v.rows| ==> v.rows[i].order == Some(o))
    && Booked(v.order, v.delivery, v.rows)
    && RowsOk(v.rows, v.delivery, now, window)
    && v.refunds == (if v.order.refund.Some? then 1 else 0)
  }

  /** The view after an effect. */
  function After(v: View, o: OrderId, eff: Effect): View {
    View(eff.order, eff.delivery,
         InsertAll(Reversed(v.rows, o, RefundsNow(v.order, eff.order), eff.reverseDriverPay), eff.booked),
         v.refunds + if RefundsNow(v.order, eff.order) then 1 else 0)
  }

  // ---- Bulk updates keep identities ----

  lemma UpdateKeepsIdentities(u: BulkUpdate, rows: seq<Entry>)
    ensures Identities(Update(u, rows)) == Identities(rows)
  {
    forall i | 0 <= i < |rows| ensures Identities(Update(u, rows))[i] == Identities(rows)[i] {
      assert Update(u, rows)[i] == UpdateOne(u, rows[i]);
    }
  }

  lemma ReversedKeeps(rows: seq<Entry>, o: OrderId, refundsNow: bool, driver: bool, d: Option<DeliveryRow>, now: Time,
                      window: nat)
    requires RowsOk(rows, d, now, window)
    ensures var r := Reversed(rows, o, refundsNow, driver);
      && |r| == |rows| && Identities(r) == Identities(rows) && RowsOk(r, d, now, window)
      && (forall i :: 0 <= i < |rows| ==> r[i].order == rows[i].order)
  {
    var es := if driver then Update(Reverse(o, true), rows) else rows;
    UpdateKeepsIdentities(Reverse(o, true), rows);
    UpdateKeepsIdentities(Reverse(o, false), es);
  }

  // ---- Every handler keeps the invariant ----

  function LocalOf(v: View, e: Event): Local {
    Local(v.order, if e.MarkReady? then None else v.delivery)
  }

  function EffectOf(e: Event, v: View, o: OrderId, now: Time, window: nat): Option<Effect>
    requires ForDelivery(e) ==> v.delivery.Some?
  {
    Decide(e, o, LocalOf(v, e), now, window).effect
  }

  /** Parties, items and prices of an order never change, its stock never becomes held again, and a refund id is
      never replaced. */
  predicate SameTerms(a: Order, b: Order) {
    && a.terms == b.terms
    && (b.choice == a.choice || b.choice.Pickup?)
    && (a.inventoryRestored ==> b.inventoryRestored)
    && (a.refund.Some? ==> b.refund == a.refund)
  }

  predicate SettlesDriver(e: Event) {
    e.DeliverByScan? || e.DeliverAbsent? || e.DriverTimeout? || e.ReportUnavailable?
  }

  predicate Books(e: Event) { SettlesDriver(e) || e.ConfirmPickup? }

  predicate ByDriver(e: Event) { ForDelivery(e) && !SettlesDriver(e) }

  predicate Cancels(e: Event) { e.DecideNoDriver? || e.AutoCancelNoResponse? || e.CannotProvide? || e.CancelBySeller? }

  lemma TermsKept(e: Event, v: View, o: OrderId, now: Time, window: nat)
    requires ForDelivery(e) ==> v.delivery.Some?
    ensures var eff := EffectOf(e, v, o, now, window); eff.Some? ==> SameTerms(v.order, eff.value.order)
  {
    if Cancels(e) { TermsKeptByCancels(e, v, o, now, window); }
    else if ForDelivery(e) { TermsKeptByDriver(e, v, o, now, window); }
  }

  lemma TermsKeptByDriver(e: Event, v: View, o: OrderId, now: Time, window: nat)
    requires ForDelivery(e) && v.delivery.Some?
    ensures var eff := EffectOf(e, v, o, now, window); eff.Some? ==> SameTerms(v.order, eff.value.order)
  {
  }

  lemma TermsKeptByCancels(e: Event, v: View, o: OrderId, now: Time, window: nat)
    requires Cancels(e)
    ensures var eff := EffectOf(e, v, o, now, window); eff.Some? ==> SameTerms(v.order, eff.value.order)
  {
  }

  lemma LegalAfterDriver(e: Event, v: View, o: OrderId, now: Time, window: nat)
    requires ForDelivery(e) && v.delivery.Some? && Legal(v.order, v.delivery, o)
    ensures var eff := EffectOf(e, v, o, now, window); eff.Some? ==> Legal(eff.value.order, eff.value.delivery, o)
  {
  }

  lemma LegalAfterCancel(e: Event, v: View, o: OrderId, now: Time, window: nat)
    requires Cancels(e) && Legal(v.order, v.delivery, o)
    ensures var eff := EffectOf(e, v, o, now, window); eff.Some? ==> Legal(eff.value.order, eff.value.delivery, o)
  {
  }

  lemma LegalAfterOther(e: Event, v: View, o: OrderId, now: Time, window: nat)
    requires !ForDelivery(e) && !Cancels(e) && Legal(v.order, v.delivery, o)
    ensures var eff := EffectOf(e, v, o, now, window); eff.Some? ==> Legal(eff.value.order, eff.value.delivery, o)
  {
  }

  // ---- Bookings ----

  /** Rows of one order that a single `createMany` inserts without skipping any. */
  predicate Insertable(rows: seq<Entry>, o: OrderId) {
    && (forall i :: 0 <= i < |rows| ==> rows[i].order == Some(o))
    && (forall i, j :: 0 <= i < j < |rows| ==> !Collides(rows[i], rows[j]))
  }

  lemma CompletionIsSound(o: OrderId, order: Order, d: Option<DeliveryRow>, now: Time, window: nat)
    requires order.status.Delivered?
    requires order.choice.Delivery? ==> Fulfilled(d).Some?
    requires order.choice.Pickup? ==> d.None? || (!d.value.status.Delivered? && d.value.deliveredAt.None?)
    ensures var rows := CompletionRows(o, order, Fulfilled(d), now, window);
      Insertable(rows, o) && Identities(rows) == CompletionIds(order, d) && RowsOk(rows, d, now, window)
  {
    CompletionIdentities(o, order, d, now, window);
    CompletionRowsOk(o, order, d, now, window);
  }

  lemma CompletionIdentities(o: OrderId, order: Order, d: Option<DeliveryRow>, now: Time, window: nat)
    requires order.status.Delivered?
    requires order.choice.Delivery? ==> Fulfilled(d).Some?
    ensures Identities(CompletionRows(o, order, Fulfilled(d), now, window)) == CompletionIds(order, d)
  {
  }

  lemma CompletionRowsOk(o: OrderId, order: Order, d: Option<DeliveryRow>, now: Time, window: nat)
    requires order.status.Delivered?
    requires order.choice.Delivery? ==> Fulfilled(d).Some?
    requires order.choice.Pickup? ==> d.None? || (!d.value.status.Delivered? && d.value.deliveredAt.None?)
    ensures RowsOk(CompletionRows(o, order, Fulfilled(d), now, window), d, now, window)
  {
  }

  lemma DisappearanceIsSound(o: OrderId, order: Order, d: DeliveryRow, now: Time, window: nat)
    ensures var rows := DisappearanceRows(o, order, d.driver, now);
      Insertable(rows, o) && Identities(rows) == DisappearanceIds(order, d) && RowsOk(rows, Some(d), now, window)
  {
  }

  predicate BookingSound(v: View, o: OrderId, eff: Effect, now: Time, window: nat) {
    && v.rows == []
    && Insertable(eff.booked, o)
    && RowsOk(eff.booked, eff.delivery, now, window)
    && Booked(eff.order, eff.delivery, eff.booked)
  }

  lemma DisappearanceIsFresh(e: Event, v: View, o: OrderId, now: Time, window: nat)
    requires v.delivery.Some? && e.DriverTimeout?
    requires Legal(v.order, v.delivery, o) && Booked(v.order, v.delivery, v.rows)
    ensures var eff := EffectOf(e, v, o, now, window); eff.Some? ==> BookingSound(v, o, eff.value, now, window)
  {
    DisappearanceIsSound(o, v.order, v.delivery.value.(status := DeliveryStatus.Failed), now, window);
  }

  lemma CompensationIsFresh(e: Event, v: View, o: OrderId, now: Time, window: nat)
    requires v.delivery.Some? && e.ReportUnavailable?
    requires Legal(v.order, v.delivery, o) && Booked(v.order, v.delivery, v.rows)
    ensures var eff := EffectOf(e, v, o, now, window); eff.Some? ==> BookingSound(v, o, eff.value, now, window)
  {
  }

  lemma CompletionIsFresh(e: Event, v: View, o: OrderId, now: Time, window: nat)
    requires ForDelivery(e) ==> v.delivery.Some?
    requires e.ConfirmPickup? || e.DeliverByScan? || e.DeliverAbsent?
    requires Legal(v.order, v.delivery, o) && Booked(v.order, v.delivery, v.rows)
    ensures var eff := EffectOf(e, v, o, now, window); eff.Some? ==> BookingSound(v, o, eff.value, now, window)
  {
    var r := EffectOf(e, v, o, now, window);
    if r.Some? {
      CompletionIsSound(o, r.value.order, r.value.delivery, now, window);
    }
  }

  /** A handler that books does so on an order without a single ledger row, so no insert is ever skipped. */
  lemma BookingIsFresh(e: Event, v: View, o: OrderId, now: Time, window: nat)
    requires ForDelivery(e) ==> v.delivery.Some?
    requires Books(e) && Legal(v.order, v.delivery, o) && Booked(v.order, v.delivery, v.rows)
    ensures var eff := EffectOf(e, v, o, now, window); eff.Some? ==> BookingSound(v, o, eff.value, now, window)
  {
    if e.DriverTimeout? { DisappearanceIsFresh(e, v, o, now, window); }
    else if e.ReportUnavailable? { CompensationIsFresh(e, v, o, now, window); }
    else { CompletionIsFresh(e, v, o, now, window); }
  }

  /** Nothing is booked, and what the ledger must hold for the order does not move. */
  predicate LedgerUntouched(v: View, eff: Effect) {
    && eff.booked == []
    && Booked(eff.order, eff.delivery, v.rows)
    && (v.rows != [] ==> eff.delivery == v.delivery)
  }

  lemma NothingBookedByDriver(e: Event, v: View, o: OrderId, now: Time, window: nat)
    requires ByDriver(e) && v.delivery.Some?
    requires Legal(v.order, v.delivery, o) && Booked(v.order, v.delivery, v.rows)
    ensures var eff := EffectOf(e, v, o, now, window); eff.Some? ==> LedgerUntouched(v, eff.value)
  {
  }

  lemma NothingBookedByNoDriver(e: Event, v: View, o: OrderId, now: Time, window: nat)
    requires e.DecideNoDriver? || e.AutoCancelNoResponse?
    requires Legal(v.order, v.delivery, o) && Booked(v.order, v.delivery, v.rows)
    ensures var eff := EffectOf(e, v, o, now, window); eff.Some? ==> LedgerUntouched(v, eff.value)
  {
  }

  lemma NothingBookedBySeller(e: Event, v: View, o: OrderId, now: Time, window: nat)
    requires e.CannotProvide? || e.CancelBySeller?
    requires Legal(v.order, v.delivery, o) && Booked(v.order, v.delivery, v.rows)
    ensures var eff := EffectOf(e, v, o, now, window); eff.Some? ==> LedgerUntouched(v, eff.value)
  {
  }

  lemma NothingBookedByOther(e: Event, v: View, o: OrderId, now: Time, window: nat)
    requires !Books(e) && !ForDelivery(e) && !Cancels(e)
    requires Legal(v.order, v.delivery, o) && Booked(v.order, v.delivery, v.rows)
    ensures var eff := EffectOf(e, v, o, now, window); eff.Some? ==> LedgerUntouched(v, eff.value)
  {
  }

  lemma NothingBooked(e: Event, v: View, o: OrderId, now: Time, window: nat)
    requires ForDelivery(e) ==> v.delivery.Some?
    requires !Books(e) && Legal(v.order, v.delivery, o) && Booked(v.order, v.delivery, v.rows)
    ensures var eff := EffectOf(e, v, o, now, window); eff.Some? ==> LedgerUntouched(v, eff.value)
  {
    if ForDelivery(e) { NothingBookedByDriver(e, v, o, now, window); }
    else if e.DecideNoDriver? || e.AutoCancelNoResponse? { NothingBookedByNoDriver(e, v, o, now, window); }
    else if Cancels(e) { NothingBookedBySeller(e, v, o, now, window); }
    else { NothingBookedByOther(e, v, o, now, window); }
  }

  lemma LegalKept(e: Event, v: View, o: OrderId, now: Time, window: nat)
    requires ForDelivery(e) ==> v.delivery.Some?
    requires Legal(v.order, v.delivery, o)
    ensures var eff := EffectOf(e, v, o, now, window); eff.Some? ==> Legal(eff.value.order, eff.value.delivery, o)
  {
    if ForDelivery(e) { LegalAfterDriver(e, v, o, now, window); }
    else if Cancels(e) { LegalAfterCancel(e, v, o, now, window); }
    else { LegalAfterOther(e, v, o, now, window); }
  }

  lemma RowsAfterSound(v: View, o: OrderId, eff: Effect, now: Time, window: nat)
    requires RowsOk(v.rows, v.delivery, now, window)
    requires forall i :: 0 <= i < |v.rows| ==> v.rows[i].order == Some(o)
    requires BookingSound(v, o, eff, now, window) || LedgerUntouched(v, eff)
    ensures var rows := After(v, o, eff).rows;
      && (forall i :: 0 <= i < |rows| ==> rows[i].order == Some(o))
      && Booked(eff.order, eff.delivery, rows)
      && RowsOk(rows, eff.delivery, now, window)
      && Identities(rows) == Identities(v.rows) + Identities(eff.booked)
  {
    var refundsNow := RefundsNow(v.order, eff.order);
    var rows := Reversed(v.rows, o, refundsNow, eff.reverseDriverPay);
    ReversedKeeps(v.rows, o, refundsNow, eff.reverseDriverPay, v.delivery, now, window);
    if LedgerUntouched(v, eff) {
      assert InsertAll(rows, eff.booked) == rows;
    } else {
      InsertAllFresh(rows, eff.booked);
      assert rows + eff.booked == eff.booked;
    }
  }

  /** Every handler keeps the invariant of the order it works on. */
  lemma HandlersKeepGood(e: Event, v: View, o: OrderId, tariff: Tariff, now: Time, window: nat)
    requires Good(v, o, tariff, now, window)
    requires ForDelivery(e) ==> v.delivery.Some?
    ensures var eff := EffectOf(e, v, o, now, window);
      eff.Some? ==> Good(After(v, o, eff.value), o, tariff, now, window)
  {
    var r := EffectOf(e, v, o, now, window);
    if r.Some? {
      TermsKept(e, v, o, now, window);
      LegalKept(e, v, o, now, window);
      if Books(e) { BookingIsFresh(e, v, o, now, window); } else { NothingBooked(e, v, o, now, window); }
      GoodAfter(v, o, r.value, tariff, now, window);
    }
  }

  lemma GoodAfter(v: View, o: OrderId, eff: Effect, tariff: Tariff, now: Time, window: nat)
    requires Good(v, o, tariff, now, window)
    requires SameTerms(v.order, eff.order) && Legal(eff.order, eff.delivery, o)
    requires BookingSound(v, o, eff, now, window) || LedgerUntouched(v, eff)
    ensures Good(After(v, o, eff), o, tariff, now, window)
  {
    RowsAfterSound(v, o, eff, now, window);
  }
}
