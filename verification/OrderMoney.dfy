/** What the ledger and Stripe hold for one order: caps, exact totals, refunds and the driver-disappeared settlement. */
module OrderMoney {
  import opened Domain
  import opened Pricing
  import opened Ledger
  import opened Lifecycle
  import opened Marketplace
  import opened Consistency
  import opened Views
  import opened Runs
  import opened Finality
  import opened Transitions

  // ---- Positive totals depend on identities only ----

  function PositiveOf(ids: seq<Identity>): nat {
    if ids == [] then 0 else PositiveOf(ids[..|ids| - 1]) + Positive(ids[|ids| - 1].amountCents)
  }

  lemma {:induction false} TotalOfIdentities(rows: seq<Entry>)
    ensures PositiveTotal(rows) == PositiveOf(Identities(rows))
  {
    if rows == [] {
    } else {
      var n := |rows| - 1;
      TotalOfIdentities(rows[..n]);
      assert Identities(rows)[..n] == Identities(rows[..n]);
    }
  }

  lemma PositiveOfWhen(ids: seq<Identity>, condition: bool, id: Identity)
    ensures PositiveOf(ids + When(condition, id)) == PositiveOf(ids) + if condition then Positive(id.amountCents) else 0
  {
    if condition { assert (ids + [id])[..|ids|] == ids; } else { assert ids + [] == ids; }
  }

  lemma CompletedTotal(order: Order, d: Option<DeliveryRow>)
    ensures var t := order.terms;
      PositiveOf(CompletionIds(order, d))
      == Positive(t.sellerEarningsCents) + Positive(t.commissionCents)
         + if order.choice.Delivery? && d.Some? && d.value.driver.Some? then Positive(t.fulfillmentFeeCents) else 0
  {
    var t := order.terms;
    var sellerId := Identity(t.seller, OrderEarning, t.sellerEarningsCents, NoNote);
    var platformId := Identity(Platform, Commission, t.commissionCents, NoNote);
    var seller := When(t.sellerEarningsCents > 0, sellerId);
    PositiveOfWhen([], t.sellerEarningsCents > 0, sellerId);
    assert [] + seller == seller;
    PositiveOfWhen(seller, t.commissionCents > 0, platformId);
    var two := seller + When(t.commissionCents > 0, platformId);
    if order.choice.Delivery? && d.Some? && d.value.driver.Some? {
      PositiveOfWhen(two, t.fulfillmentFeeCents > 0,
                     Identity(d.value.driver.value, DeliveryEarning, t.fulfillmentFeeCents, NoNote));
    } else {
      assert two + [] == two;
    }
  }

  lemma CompensatedTotal(order: Order, d: DeliveryRow)
    ensures PositiveOf(CompensationIds(order, d)) <= Positive(order.terms.fulfillmentFeeCents)
  {
  }

  lemma DisappearedTotal(order: Order, d: DeliveryRow)
    ensures PositiveOf(DisappearanceIds(order, d)) == Positive(order.terms.sellerEarningsCents)
  {
    var t := order.terms;
    var sellerId := Identity(t.seller, OrderEarning, t.sellerEarningsCents, DriverDisappeared);
    var seller := When(t.sellerEarningsCents > 0, sellerId);
    PositiveOfWhen([], t.sellerEarningsCents > 0, sellerId);
    assert [] + seller == seller;
    if d.driver.Some? {
      PositiveOfWhen(seller, t.buyerTotalCents > 0,
                     Identity(d.driver.value, DriverDebt, -t.buyerTotalCents, Clawback));
    } else {
      assert seller + [] == seller;
    }
  }

  // ---- The cap ----

  /** Subtotal plus platform fee covers the commission floor. */
  predicate Covered(order: Order) {
    COMMISSION_MIN_CENTS <= order.terms.buyerTotalCents - order.terms.fulfillmentFeeCents
  }

  lemma SharesOfPriced(order: Order, tariff: Tariff)
    requires Priced(order, tariff)
    ensures order.terms.commissionCents >= COMMISSION_MIN_CENTS
    ensures var t := order.terms;
      Covered(order) <==>
      Positive(t.sellerEarningsCents) + t.commissionCents <= t.buyerTotalCents - t.fulfillmentFeeCents
    ensures order.terms.subtotalCents >= COMMISSION_MIN_CENTS ==>
      Covered(order) && order.terms.sellerEarningsCents >= 0
  {
    var premium := order.terms.commissionRateBps == COMMISSION_RATE_BPS_PREMIUM;
    FeesAreExactUpToHalfACent(order.terms.subtotalCents, premium, false, tariff);
    var amount := order.terms.subtotalCents + order.terms.fulfillmentFeeCents;
    if amount >= 0 { RoundingIsMonotone(0, amount, tariff.platformBuyerFeeBps); }
  }

  /** What the rows of an order may add up to, by its status and delivery. */
  lemma BookedTotals(order: Order, d: Option<DeliveryRow>, rows: seq<Entry>)
    requires Coupled(order, d) && Booked(order, d, rows) && order.terms.commissionCents >= 0
    requires order.terms.fulfillmentFeeCents >= 0
    ensures order.status.Delivered? ==>
      PositiveTotal(rows) == Positive(order.terms.sellerEarningsCents) + order.terms.commissionCents
                             + if order.choice.Delivery? then order.terms.fulfillmentFeeCents else 0
    ensures PositiveTotal(rows) <= Positive(order.terms.sellerEarningsCents) + order.terms.commissionCents
                                   + order.terms.fulfillmentFeeCents
  {
    TotalOfIdentities(rows);
    CompletedTotal(order, d);
    if d.Some? {
      CompensatedTotal(order, d.value);
      DisappearedTotal(order, d.value);
    }
  }

  lemma GoodTotals(v: View, o: OrderId, tariff: Tariff, now: Time, window: nat)
    requires Good(v, o, tariff, now, window)
    ensures Covered(v.order) ==> PositiveTotal(v.rows) <= v.order.terms.buyerTotalCents
    ensures v.order.status.Delivered? ==>
      PositiveTotal(v.rows) == Positive(v.order.terms.sellerEarningsCents) + v.order.terms.commissionCents
                               + if v.order.choice.Delivery? then v.order.terms.fulfillmentFeeCents else 0
  {
    SharesOfPriced(v.order, tariff);
    BookedTotals(v.order, v.delivery, v.rows);
  }

  /** The ledger never credits more for an order than its buyer paid, in any reachable state, however often credits,
      compensations and cancellations were attempted. */
  lemma OrderNeverPaysMoreThanItsTotal(s: State, o: OrderId)
    requires Reachable(s) && o < |s.orders|
    requires s.orders[o].terms.subtotalCents >= COMMISSION_MIN_CENTS || Covered(s.orders[o])
    ensures PositiveTotal(Rows(s.entries, o)) <= s.orders[o].terms.buyerTotalCents
  {
    ReachableIsConsistent(s);
    assert Good(ViewOf(s, o), o, s.tariff, s.now, s.releaseWindow);
    SharesOfPriced(s.orders[o], s.tariff);
    GoodTotals(ViewOf(s, o), o, s.tariff, s.now, s.releaseWindow);
  }

  /** A delivered order has paid out exactly its subtotal, and its delivery fee when it was delivered. */
  lemma CompletionPaysExactly(s: State, o: OrderId)
    requires Reachable(s) && o < |s.orders| && s.orders[o].status.Delivered?
    requires s.orders[o].terms.subtotalCents >= COMMISSION_MIN_CENTS
    ensures var t := s.orders[o].terms;
      PositiveTotal(Rows(s.entries, o))
      == t.subtotalCents + if s.orders[o].choice.Delivery? then t.fulfillmentFeeCents else 0
  {
    ReachableIsConsistent(s);
    assert Good(ViewOf(s, o), o, s.tariff, s.now, s.releaseWindow);
    SharesOfPriced(s.orders[o], s.tariff);
    GoodTotals(ViewOf(s, o), o, s.tariff, s.now, s.releaseWindow);
  }

  /** Below one euro the cap can fail: for a completed order it holds exactly when the buyer's total, less the fee that
      went to a driver, covers the commission floor. */
  lemma CapHoldsExactlyWhenCovered(s: State, o: OrderId)
    requires Reachable(s) && o < |s.orders| && s.orders[o].status.Delivered?
    ensures var t := s.orders[o].terms;
      PositiveTotal(Rows(s.entries, o)) <= t.buyerTotalCents <==>
      COMMISSION_MIN_CENTS <= t.buyerTotalCents - if s.orders[o].choice.Delivery? then t.fulfillmentFeeCents else 0
  {
    ReachableIsConsistent(s);
    assert Good(ViewOf(s, o), o, s.tariff, s.now, s.releaseWindow);
    SharesOfPriced(s.orders[o], s.tariff);
    GoodTotals(ViewOf(s, o), o, s.tariff, s.now, s.releaseWindow);
  }

  lemma TotalHoldsTheFee(order: Order, tariff: Tariff)
    requires Priced(order, tariff) && order.terms.subtotalCents >= 0 && order.terms.fulfillmentFeeCents >= 0
    ensures order.terms.buyerTotalCents >= order.terms.fulfillmentFeeCents
  {
    RoundingIsMonotone(0, order.terms.subtotalCents + order.terms.fulfillmentFeeCents, tariff.platformBuyerFeeBps);
  }

  /** An order switched to pickup keeps its delivery fee in the buyer total, and a fee of 1 € pays for the floor. */
  lemma SwitchedOrderFits(s: State, o: OrderId)
    requires Reachable(s) && o < |s.orders| && s.orders[o].status.Delivered? && s.orders[o].choice.Pickup?
    requires s.orders[o].terms.subtotalCents >= 0 && s.orders[o].terms.fulfillmentFeeCents >= COMMISSION_MIN_CENTS
    ensures PositiveTotal(Rows(s.entries, o)) <= s.orders[o].terms.buyerTotalCents
  {
    ReachableIsConsistent(s);
    assert Good(ViewOf(s, o), o, s.tariff, s.now, s.releaseWindow);
    TotalHoldsTheFee(s.orders[o], s.tariff);
    CapHoldsExactlyWhenCovered(s, o);
  }

  // ---- Refunds ----

  /** Stripe refunded each order at most once, and the order row says whether it did. */
  lemma AtMostOneRefund(s: State, o: OrderId)
    requires Reachable(s) && o < |s.orders|
    ensures Refunds(s.refundLog, o) <= 1
    ensures Refunds(s.refundLog, o) == 1 <==> s.orders[o].refund.Some?
  {
    ReachableIsConsistent(s);
    assert Good(ViewOf(s, o), o, s.tariff, s.now, s.releaseWindow);
  }

  predicate NonePending(rows: seq<Entry>) {
    forall i :: 0 <= i < |rows| ==> !rows[i].status.Pending?
  }

  lemma RefundEffectReverses(v: View, o: OrderId, e: Event, tariff: Tariff, now: Time, window: nat)
    requires Good(v, o, tariff, now, window) && (ForDelivery(e) ==> v.delivery.Some?)
    ensures var eff := EffectOf(e, v, o, now, window);
      eff.Some? && RefundsNow(v.order, eff.value.order) ==> NonePending(After(v, o, eff.value).rows)
  {
    var eff := EffectOf(e, v, o, now, window);
    if eff.Some? && RefundsNow(v.order, eff.value.order) {
      RefundBooksNothingPending(e, v, o, now, window);
      InsertedOverReversed(v.rows, o, eff.value.reverseDriverPay, eff.value.booked);
    }
  }

  lemma InsertedOverReversed(rows: seq<Entry>, o: OrderId, reverseDriverPay: bool, booked: seq<Entry>)
    requires forall i :: 0 <= i < |rows| ==> rows[i].order == Some(o)
    requires NonePending(booked)
    ensures NonePending(InsertAll(Reversed(rows, o, true, reverseDriverPay), booked))
  {
    InsertAllAddsOnly(Reversed(rows, o, true, reverseDriverPay), booked);
  }

  lemma RefundBooksNothingPending(e: Event, v: View, o: OrderId, now: Time, window: nat)
    requires Legal(v.order, v.delivery, o) && (ForDelivery(e) ==> v.delivery.Some?)
    ensures var eff := EffectOf(e, v, o, now, window);
      eff.Some? && RefundsNow(v.order, eff.value.order) ==> NonePending(eff.value.booked)
  {
  }

  /** Right after a successful refund no row of the order is PENDING. */
  lemma RefundReversesPending(s: State, a: Action, o: OrderId)
    requires Consistent(s) && o < |s.orders|
    requires Refunds(Step(s, a).refundLog, o) > Refunds(s.refundLog, o)
    ensures NonePending(Rows(Step(s, a).entries, o))
  {
    StepIsLocal(s, a);
    assert Good(ViewOf(s, o), o, s.tariff, s.now, s.releaseWindow);
    var c := CauseOf(s, a, o);
    assert ViewOf(Step(s, a), o) == NextView(ViewOf(s, o), o, c, s.now, s.releaseWindow);
    if c.Handled? && (ForDelivery(c.event) ==> ViewOf(s, o).delivery.Some?) {
      RefundEffectReverses(ViewOf(s, o), o, c.event, s.tariff, s.now, s.releaseWindow);
    }
  }

  /** A buyer refunded while the order is still on its way. */
  predicate RefundedButActive(order: Order) {
    order.refund.Some? && !Voided(order.status)
  }

  /** The commit of a seller's cancel finds the order past cancelling but not voided, and Stripe refunds it. */
  predicate CancelLosesRace(s: State, a: Action, o: OrderId)
    requires o < |s.orders|
  {
    var order := s.orders[o];
    && a.CommitCancel? && a.order == o && o in s.cancelsInFlight && a.stripe.Accepted?
    && order.refund.None? && order.paymentIntent.Some?
    && !SellerCancellable(order.status) && !Voided(order.status)
  }

  /** A driver's scan passes its guards on an order that was refunded and voided. */
  predicate ScanMovesOn(s: State, a: Action, o: OrderId)
    requires o < |s.orders|
  {
    && s.orders[o].refund.Some? && Voided(s.orders[o].status)
    && EventOn(s, a, o).Some?
    && (CollectsFood(EventOn(s, a, o).value, LatestRow(s, o)) || HandsOver(EventOn(s, a, o).value, LatestRow(s, o)))
  }

  /** A refund does not always go with a voided order. A step leaves an order refunded but active, when it was not so
      before, exactly when the seller's cancel lost its race (its transaction was a no-op but its refund went through)
      or a driver's scan passed its guards on an order that had been refunded and voided. */
  lemma RefundedButActiveExactlyWhen(s: State, a: Action, o: OrderId)
    requires Consistent(s) && o < |s.orders| && !RefundedButActive(s.orders[o])
    ensures o < |Step(s, a).orders|
    ensures RefundedButActive(Step(s, a).orders[o]) <==> CancelLosesRace(s, a, o) || ScanMovesOn(s, a, o)
  {
    StepIsLocal(s, a);
    var v, c := ViewOf(s, o), CauseOf(s, a, o);
    assert Good(v, o, s.tariff, s.now, s.releaseWindow);
    assert ViewOf(Step(s, a), o) == NextView(v, o, c, s.now, s.releaseWindow);
    ActiveCauses(s, a, o);
    if c.Handled? && (ForDelivery(c.event) ==> v.delivery.Some?) {
      ActiveAfterHandler(v, o, c.event, s.now, s.releaseWindow);
    }
  }

  predicate LosesRace(order: Order, e: Event) {
    && e.CancelBySeller? && e.stripe.Accepted? && order.refund.None? && order.paymentIntent.Some?
    && !SellerCancellable(order.status) && !Voided(order.status)
  }

  predicate MovesOn(order: Order, d: Option<DeliveryRow>, e: Event) {
    order.refund.Some? && Voided(order.status) && (CollectsFood(e, d) || HandsOver(e, d))
  }

  lemma ActiveCauses(s: State, a: Action, o: OrderId)
    requires Linked(s) && o < |s.orders|
    ensures var c := CauseOf(s, a, o);
      && (CancelLosesRace(s, a, o) <==> c.Handled? && LosesRace(s.orders[o], c.event))
      && (ScanMovesOn(s, a, o) <==> c.Handled? && MovesOn(s.orders[o], LatestRow(s, o), c.event))
      && (c.Handled? && ForDelivery(c.event) ==> LatestRow(s, o).Some?)
  {
    EventIsTheCause(s, a, o);
  }

  lemma ActiveAfterHandler(v: View, o: OrderId, e: Event, now: Time, window: nat)
    requires Legal(v.order, v.delivery, o) && !RefundedButActive(v.order)
    requires ForDelivery(e) ==> v.delivery.Some?
    ensures var eff := EffectOf(e, v, o, now, window);
      (eff.Some? && RefundedButActive(eff.value.order)) <==> LosesRace(v.order, e) || MovesOn(v.order, v.delivery, e)
  {
    if ForDelivery(e) { ActiveAfterDriver(v, o, e, now, window); }
    else if Cancels(e) { ActiveAfterCancel(v, o, e, now, window); }
    else { ActiveAfterOther(v, o, e, now, window); }
  }

  lemma ActiveAfterDriver(v: View, o: OrderId, e: Event, now: Time, window: nat)
    requires Legal(v.order, v.delivery, o) && !RefundedButActive(v.order) && ForDelivery(e) && v.delivery.Some?
    ensures var eff := EffectOf(e, v, o, now, window);
      (eff.Some? && RefundedButActive(eff.value.order)) <==> MovesOn(v.order, v.delivery, e)
  {
  }

  lemma ActiveAfterCancel(v: View, o: OrderId, e: Event, now: Time, window: nat)
    requires Legal(v.order, v.delivery, o) && !RefundedButActive(v.order) && Cancels(e)
    ensures var eff := EffectOf(e, v, o, now, window);
      (eff.Some? && RefundedButActive(eff.value.order)) <==> LosesRace(v.order, e)
  {
  }

  lemma ActiveAfterOther(v: View, o: OrderId, e: Event, now: Time, window: nat)
    requires Legal(v.order, v.delivery, o) && !RefundedButActive(v.order) && !ForDelivery(e) && !Cancels(e)
    ensures var eff := EffectOf(e, v, o, now, window); eff.Some? ==> !RefundedButActive(eff.value.order)
  {
  }

  /** No step of the run is a lost cancel race, or a scan on a refunded and voided order. */
  predicate NoLateMove(s: State, actions: seq<Action>, o: OrderId) {
    actions == []
    || var n := |actions| - 1; var t := Run(s, actions[..n]);
       && NoLateMove(s, actions[..n], o)
       && (o < |t.orders| ==> !CancelLosesRace(t, actions[n], o) && !ScanMovesOn(t, actions[n], o))
  }

  predicate RefundVoids(s: State, o: OrderId) {
    o < |s.orders| ==> !RefundedButActive(s.orders[o])
  }

  lemma NewOrdersStartUnrefunded(s: State, a: Action, o: OrderId)
    requires o >= |s.orders|
    ensures o < |Step(s, a).orders| ==> Step(s, a).orders[o].refund.None?
  {
    if CallOf(s, a).Some? { StepRunsItsCall(s, a); }
    else if a.PlaceOrder? { PlacedIsNotRefunded(s, a.placement, o); }
    else { StepWithoutCall(s, a); }
  }

  lemma PlacedIsNotRefunded(s: State, p: Placement, o: OrderId)
    requires o >= |s.orders|
    ensures o < |Place(s, p).state.orders| ==> Place(s, p).state.orders[o].refund.None?
  {
  }

  /** In every run without the two, a refunded order is CANCELLED or REFUNDED. */
  lemma {:induction false} RefundedMeansVoided(s: State, actions: seq<Action>, o: OrderId)
    requires Consistent(s) && RefundVoids(s, o) && NoLateMove(s, actions, o)
    ensures RefundVoids(Run(s, actions), o)
  {
    if actions == [] {
    } else {
      var n := |actions| - 1;
      RefundedMeansVoided(s, actions[..n], o);
      EveryRunIsConsistent(s, actions[..n]);
      var t := Run(s, actions[..n]);
      if o < |t.orders| { RefundedButActiveExactlyWhen(t, actions[n], o); }
      else { NewOrdersStartUnrefunded(t, actions[n], o); }
    }
  }

  /** Refunded, voided, and without a PENDING row. */
  predicate RefundQuiet(s: State, o: OrderId) {
    o < |s.orders| && s.orders[o].refund.Some? ==> Voided(s.orders[o].status) && NonePending(Rows(s.entries, o))
  }

  lemma BulkKeepsNonePending(u: BulkUpdate, rows: seq<Entry>)
    requires NonePending(rows)
    ensures NonePending(Update(u, rows))
  {
  }

  /** A handler books nothing PENDING on a refunded and voided order unless it is a driver's scan that goes through. */
  lemma QuietBookings(v: View, o: OrderId, e: Event, now: Time, window: nat)
    requires Legal(v.order, v.delivery, o) && (ForDelivery(e) ==> v.delivery.Some?)
    requires v.order.refund.Some? && Voided(v.order.status) && !MovesOn(v.order, v.delivery, e)
    ensures var eff := EffectOf(e, v, o, now, window); eff.Some? ==> NonePending(eff.value.booked)
  {
  }

  lemma QuietAfter(rows: seq<Entry>, o: OrderId, refundsNow: bool, driver: bool, booked: seq<Entry>)
    requires NonePending(rows) && NonePending(booked)
    ensures NonePending(InsertAll(Reversed(rows, o, refundsNow, driver), booked))
  {
    var es := if driver then Update(Reverse(o, true), rows) else rows;
    BulkKeepsNonePending(Reverse(o, true), rows);
    BulkKeepsNonePending(Reverse(o, false), es);
    InsertAllAddsOnly(Reversed(rows, o, refundsNow, driver), booked);
  }

  /** A view without PENDING rows keeps none, as long as no scan goes through. */
  lemma QuietViewStays(v: View, o: OrderId, c: Cause, tariff: Tariff, now: Time, window: nat)
    requires Good(v, o, tariff, now, window) && v.order.refund.Some? && Voided(v.order.status) && NonePending(v.rows)
    requires c.Handled? ==> !MovesOn(v.order, v.delivery, c.event)
    ensures NonePending(NextView(v, o, c, now, window).rows)
  {
    match c
    case Untouched =>
    case Bulk(u) => BulkKeepsNonePending(u, v.rows);
    case Handled(e) =>
      if ForDelivery(e) ==> v.delivery.Some? {
        var eff := EffectOf(e, v, o, now, window);
        if eff.Some? {
          QuietBookings(v, o, e, now, window);
          QuietAfter(v.rows, o, RefundsNow(v.order, eff.value.order), eff.value.reverseDriverPay, eff.value.booked);
        }
      }
  }

  lemma QuietStepStays(s: State, a: Action, o: OrderId)
    requires Consistent(s) && o < |s.orders| && RefundQuiet(s, o)
    requires !CancelLosesRace(s, a, o) && !ScanMovesOn(s, a, o)
    ensures o < |Step(s, a).orders| && RefundQuiet(Step(s, a), o)
  {
    RefundedButActiveExactlyWhen(s, a, o);
    if s.orders[o].refund.Some? {
      RefundedStepStays(s, a, o);
    } else if Step(s, a).orders[o].refund.Some? {
      RefundCounts(s, a, o);
      RefundReversesPending(s, a, o);
    }
  }

  lemma RefundedStepStays(s: State, a: Action, o: OrderId)
    requires Consistent(s) && o < |s.orders| && RefundQuiet(s, o) && s.orders[o].refund.Some?
    requires !ScanMovesOn(s, a, o)
    ensures o < |Step(s, a).orders| && NonePending(Rows(Step(s, a).entries, o))
  {
    var v, c := ViewOf(s, o), CauseOf(s, a, o);
    StepIsLocal(s, a);
    assert Good(v, o, s.tariff, s.now, s.releaseWindow);
    ActiveCauses(s, a, o);
    QuietViewStays(v, o, c, s.tariff, s.now, s.releaseWindow);
    assert ViewOf(Step(s, a), o) == NextView(v, o, c, s.now, s.releaseWindow);
  }

  lemma RefundCounts(s: State, a: Action, o: OrderId)
    requires Consistent(s) && o < |s.orders| && s.orders[o].refund.None?
    requires o < |Step(s, a).orders| && Step(s, a).orders[o].refund.Some?
    ensures Refunds(Step(s, a).refundLog, o) > Refunds(s.refundLog, o)
  {
    StepKeepsConsistent(s, a);
    var s' := Step(s, a);
    assert Good(ViewOf(s, o), o, s.tariff, s.now, s.releaseWindow);
    assert Good(ViewOf(s', o), o, s'.tariff, s'.now, s'.releaseWindow);
  }

  /** In every run without a lost cancel race or such a scan, a refunded order has no PENDING row in any later state:
      the earnings reversed by its refund never become withdrawable, and no others come after them. */
  lemma {:induction false} RefundedEarnsNothing(s: State, actions: seq<Action>, o: OrderId)
    requires Consistent(s) && RefundQuiet(s, o) && NoLateMove(s, actions, o)
    ensures RefundQuiet(Run(s, actions), o)
  {
    if actions == [] {
    } else {
      var n := |actions| - 1;
      RefundedEarnsNothing(s, actions[..n], o);
      EveryRunIsConsistent(s, actions[..n]);
      var t := Run(s, actions[..n]);
      if o < |t.orders| { QuietStepStays(t, actions[n], o); }
      else { NewOrdersStartUnrefunded(t, actions[n], o); }
    }
  }

  // ---- Driver disappeared ----

  /** The rows a disappeared driver's order must end up with: the seller's pay and the driver's debt. */
  function Settlement(o: OrderId, order: Order, driver: User, now: Time): seq<Entry> {
    var t := order.terms;
    var pay := Entry(t.seller, Some(o), OrderEarning, t.sellerEarningsCents, EntryStatus.Available, None, Some(now),
                     None, DriverDisappeared);
    var debt := Entry(driver, Some(o), DriverDebt, -t.buyerTotalCents, EntryStatus.Available, None, Some(now), None,
                      Clawback);
    (if t.sellerEarningsCents > 0 then [pay] else []) + (if t.buyerTotalCents > 0 then [debt] else [])
  }

  predicate Settled(v: View, v': View, o: OrderId, now: Time) {
    && v.delivery.Some? && v.delivery.value.driver.Some? && v.rows == []
    && v'.rows == Settlement(o, v.order, v.delivery.value.driver.value, now)
    && v'.order.status.Cancelled? && v'.delivery == Some(v.delivery.value.(status := DeliveryStatus.Failed))
  }

  lemma RowsAreTheSettlement(o: OrderId, order: Order, driver: User, now: Time)
    ensures DisappearanceRows(o, order, Some(driver), now) == Settlement(o, order, driver, now)
  {
  }

  /** What the watchdog writes when it is due. */
  lemma TimeoutEffect(order: Order, d: DeliveryRow, o: OrderId, stripe: StripeReply, now: Time)
    requires TimeoutDue(order, d)
    ensures var eff := OnDriverTimeout(o, order, d, stripe, now).effect;
      && eff.Some? && eff.value.order.status.Cancelled?
      && eff.value.delivery == Some(d.(status := DeliveryStatus.Failed))
      && eff.value.booked == DisappearanceRows(o, order, d.driver, now)
  {
  }

  lemma DisappearanceSettles(v: View, o: OrderId, stripe: StripeReply, tariff: Tariff, now: Time, window: nat)
    requires Good(v, o, tariff, now, window) && v.delivery.Some?
    ensures var eff := EffectOf(DriverTimeout(stripe), v, o, now, window);
      eff.Some? ==> Settled(v, After(v, o, eff.value), o, now)
  {
    var d := v.delivery.value;
    if TimeoutDue(v.order, d) {
      TimeoutEffect(v.order, d, o, stripe, now);
      FreshBooking(DriverTimeout(stripe), v, o, tariff, now, window);
      assert d.driver.Some?;
      RowsAreTheSettlement(o, v.order, d.driver.value, now);
    }
  }

  /** When the driver-disappeared handler passes its guards the order has no ledger row at all, so nothing is skipped:
      afterwards its rows are exactly the seller's AVAILABLE pay and the driver's debt of the whole buyer total. */
  lemma DisappearanceIsExact(s: State, d: DeliveryId, stripe: StripeReply)
    requires Reachable(s) && d < |s.deliveries|
    requires Handle(s, OnDelivery(d, DriverTimeout(stripe))).outcome.Done?
    ensures var o := s.deliveries[d].order;
      var s' := Step(s, OnDelivery(d, DriverTimeout(stripe)));
      o < |s.orders| && o < |s'.orders| && Settled(ViewOf(s, o), ViewOf(s', o), o, s.now)
  {
    ReachableIsConsistent(s);
    var o, e := s.deliveries[d].order, DriverTimeout(stripe);
    OneDeliveryPerOrder(s, d);
    assert Good(ViewOf(s, o), o, s.tariff, s.now, s.releaseWindow);
    DisappearanceSettles(ViewOf(s, o), o, stripe, s.tariff, s.now, s.releaseWindow);
    HandlerOnViews(s, o, Some(d), e);
  }
}
