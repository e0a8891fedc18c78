/** Which order and delivery states can occur together, what never changes, and when CANCELLED or REFUNDED is final. */
module Finality {
  import opened Domain
  import opened Pricing
  import opened Ledger
  import opened Lifecycle
  import opened Marketplace
  import opened Consistency
  import opened Views
  import opened Runs

  // ---- Reachable states ----

  ghost predicate Reachable(s: State) {
    exists tariff, window, start, actions :: s == Run(InitialState(tariff, window, start), actions)
  }

  lemma ReachableIsConsistent(s: State)
    requires Reachable(s)
    ensures Consistent(s)
  {
    var tariff, window, start, actions :| s == Run(InitialState(tariff, window, start), actions);
    EveryRunIsConsistent(InitialState(tariff, window, start), actions);
  }

  /** The coupling of orders and deliveries in every reachable state. */
  lemma OrderAndDeliveryAreCoupled(s: State, o: OrderId)
    requires Reachable(s) && o < |s.orders|
    ensures forall i, j :: 0 <= i < j < |s.deliveries| ==> s.deliveries[i].order != s.deliveries[j].order
    ensures var order, d := s.orders[o], LatestRow(s, o);
      && (order.status.InDelivery? ==> d.Some? && d.value.status.PickedUp? && d.value.driver.Some?)
      && (order.status.Ready? && order.choice.Delivery? ==> d.Some? && BeforePickup(d.value.status))
      && (order.status.NoDriverAvailable? ==> d.Some? && BeforePickup(d.value.status))
      && (order.choice.Pickup? ==> d.None? || d.value.status.Cancelled?)
      && (d.Some? && d.value.status.Delivered? ==> order.status.Delivered? || order.status.Refunded?)
      && (d.Some? && d.value.status.Failed? ==> order.status.Cancelled? || order.status.Refunded?)
      && !order.status.PickedUp? && !order.status.Completed? && !order.status.Disputed?
      && (d.Some? ==> !d.value.status.Unassigned? && !d.value.status.EnRouteToPickup?
                      && !d.value.status.EnRouteToDropoff? && !d.value.status.AtDropoff?)
  {
    ReachableIsConsistent(s);
    assert Good(ViewOf(s, o), o, s.tariff, s.now, s.releaseWindow);
  }

  /** No handler leaves half of its writes behind: in particular the "DELIVERY only" rejection inside a driver's
      confirmation is never hit. */
  lemma NoHalfWrites(v: View, o: OrderId, e: Event, now: Time, window: nat)
    requires Legal(v.order, v.delivery, o) && (ForDelivery(e) ==> v.delivery.Some?)
    ensures var verdict := Decide(e, o, LocalOf(v, e), now, window);
      verdict.effect.Some? ==> verdict.outcome.Done?
  {
  }

  // ---- One winner per delivery ----

  lemma DriverIsKept(v: View, o: OrderId, e: Event, now: Time, window: nat)
    requires Legal(v.order, v.delivery, o) && v.delivery.Some? && v.delivery.value.driver.Some?
    ensures var eff := EffectOf(e, v, o, now, window);
      eff.Some? ==> eff.value.delivery.Some? && eff.value.delivery.value.driver == v.delivery.value.driver
  {
  }

  /** Of racing claims one wins: once set, the driver of an order's delivery is the same in every later state. */
  lemma {:induction false} OneClaimWins(s: State, actions: seq<Action>, o: OrderId)
    requires Consistent(s) && o < |s.orders|
    requires LatestRow(s, o).Some? && LatestRow(s, o).value.driver.Some?
    ensures var s' := Run(s, actions);
      o < |s'.orders| && LatestRow(s', o).Some? && LatestRow(s', o).value.driver == LatestRow(s, o).value.driver
  {
    if actions == [] {
    } else {
      var n := |actions| - 1;
      OneClaimWins(s, actions[..n], o);
      EveryRunIsConsistent(s, actions[..n]);
      var t := Run(s, actions[..n]);
      StepIsLocal(t, actions[n]);
      assert Good(ViewOf(t, o), o, t.tariff, t.now, t.releaseWindow);
      var c := CauseOf(t, actions[n], o);
      if c.Handled? { DriverIsKept(ViewOf(t, o), o, c.event, t.now, t.releaseWindow); }
      assert ViewOf(Run(s, actions), o) == NextView(ViewOf(t, o), o, c, t.now, t.releaseWindow);
    }
  }

  // ---- Finality of CANCELLED and REFUNDED ----

  predicate Sealed(v: View) {
    Voided(v.order.status) && !Live(v.delivery)
  }

  /** The sweep of a step looks at the order rows of that step. */
  predicate Fits(c: Cause, v: View, o: OrderId) {
    && (c.Bulk? && c.update.Release? ==> o < |c.update.orders| && c.update.orders[o].status == v.order.status)
    && (c.Bulk? ==> !c.update.Reverse?)
  }

  /** No row was added, and no PENDING row became AVAILABLE. */
  predicate NothingGained(before: seq<Entry>, after: seq<Entry>) {
    && Identities(after) == Identities(before)
    && forall i :: 0 <= i < |before| && before[i].status.Pending? ==>
         after[i].status.Pending? || after[i].status.Cancelled?
  }

  lemma SealedHandlers(v: View, o: OrderId, e: Event, now: Time, window: nat)
    requires Legal(v.order, v.delivery, o) && Sealed(v) && (ForDelivery(e) ==> v.delivery.Some?)
    ensures var eff := EffectOf(e, v, o, now, window); eff.Some? ==>
      && (eff.value.order.status == v.order.status || eff.value.order.status.Refunded?)
      && eff.value.delivery == v.delivery && eff.value.booked == [] && !eff.value.reverseDriverPay
  {
  }

  lemma SealedStays(v: View, o: OrderId, c: Cause, tariff: Tariff, now: Time, window: nat)
    requires Good(v, o, tariff, now, window) && Sealed(v) && Fits(c, v, o)
    ensures var v' := NextView(v, o, c, now, window);
      && Sealed(v') && (v'.order.status == v.order.status || v'.order.status.Refunded?)
      && NothingGained(v.rows, v'.rows)
  {
    match c
    case Untouched =>
    case Handled(e) =>
      if ForDelivery(e) ==> v.delivery.Some? {
        SealedHandlers(v, o, e, now, window);
        var eff := EffectOf(e, v, o, now, window);
        if eff.Some? {
          ReversedKeeps(v.rows, o, RefundsNow(v.order, eff.value.order), false, v.delivery, now, window);
          assert InsertAll(Reversed(v.rows, o, RefundsNow(v.order, eff.value.order), false), [])
              == Reversed(v.rows, o, RefundsNow(v.order, eff.value.order), false);
        }
      }
    case Bulk(u) => UpdateKeepsIdentities(u, v.rows);
  }

  lemma CausesFit(s: State, a: Action, o: OrderId)
    requires o < |s.orders|
    ensures Fits(CauseOf(s, a, o), ViewOf(s, o), o)
  {
  }

  lemma NothingGainedTwice(a: seq<Entry>, b: seq<Entry>, c: seq<Entry>)
    requires NothingGained(a, b) && NothingGained(b, c)
    requires forall i :: 0 <= i < |b| && b[i].status.Cancelled? ==> c[i].status.Cancelled?
    ensures NothingGained(a, c)
  {
    assert |a| == |Identities(a)| == |b| == |c|;
  }

  /** A voided order without a live delivery is final in every run: its status only moves from CANCELLED to REFUNDED,
      nothing is booked for it any more, and none of its PENDING earnings ever becomes AVAILABLE, whatever Stripe
      answers. */
  lemma {:induction false} SealedIsFinal(s: State, actions: seq<Action>, o: OrderId)
    requires Consistent(s) && o < |s.orders| && Sealed(ViewOf(s, o))
    ensures var s' := Run(s, actions);
      && o < |s'.orders|
      && Sealed(ViewOf(s', o))
      && (s'.orders[o].status == s.orders[o].status || s'.orders[o].status.Refunded?)
      && NothingGained(Rows(s.entries, o), Rows(s'.entries, o))
  {
    if actions == [] {
    } else {
      var n := |actions| - 1;
      SealedIsFinal(s, actions[..n], o);
      EveryRunIsConsistent(s, actions[..n]);
      var t, c := Run(s, actions[..n]), CauseOf(Run(s, actions[..n]), actions[n], o);
      StepIsLocal(t, actions[n]);
      CausesFit(t, actions[n], o);
      assert Good(ViewOf(t, o), o, t.tariff, t.now, t.releaseWindow);
      SealedStays(ViewOf(t, o), o, c, t.tariff, t.now, t.releaseWindow);
      CancelledRowsStay(ViewOf(t, o), o, c, t.tariff, t.now, t.releaseWindow);
      NothingGainedTwice(Rows(s.entries, o), Rows(t.entries, o),
                         NextView(ViewOf(t, o), o, c, t.now, t.releaseWindow).rows);
    }
  }

  lemma CancelledRowsStay(v: View, o: OrderId, c: Cause, tariff: Tariff, now: Time, window: nat)
    requires Good(v, o, tariff, now, window) && Sealed(v) && Fits(c, v, o)
    ensures var v' := NextView(v, o, c, now, window);
      |v.rows| <= |v'.rows|
      && forall i :: 0 <= i < |v.rows| && v.rows[i].status.Cancelled? ==> v'.rows[i].status.Cancelled?
  {
    if c.Handled? && (ForDelivery(c.event) ==> v.delivery.Some?) { SealedHandlers(v, o, c.event, now, window); }
  }

  // ---- How an order comes to be voided ----

  /** The seller's own cancel, or a dispute refund, on an order whose delivery is live. */
  predicate Reckless(v: View, c: Cause) {
    Live(v.delivery) && c.Handled? && (c.event.CancelBySeller? || c.event.RefundForDispute?)
  }

  /** Whenever a step voids an order, the order is left sealed unless it was one of those two. */
  lemma VoidingSealsExactlyWhen(v: View, o: OrderId, c: Cause, tariff: Tariff, now: Time, window: nat)
    requires Good(v, o, tariff, now, window) && !Voided(v.order.status)
    ensures var v' := NextView(v, o, c, now, window);
      Voided(v'.order.status) ==> (Sealed(v') <==> !Reckless(v, c))
  {
    if c.Handled? && (ForDelivery(c.event) ==> v.delivery.Some?) {
      if ForDelivery(c.event) { VoidingByDriver(v, o, c.event, now, window); }
      else if Cancels(c.event) { VoidingByCancel(v, o, c.event, now, window); }
      else { VoidingByOther(v, o, c.event, now, window); }
    }
  }

  predicate SealsUnless(v: View, eff: Effect, reckless: bool) {
    Voided(eff.order.status) ==> (Live(eff.delivery) <==> reckless)
  }

  lemma VoidingByDriver(v: View, o: OrderId, e: Event, now: Time, window: nat)
    requires Legal(v.order, v.delivery, o) && !Voided(v.order.status) && ForDelivery(e) && v.delivery.Some?
    ensures var eff := EffectOf(e, v, o, now, window); eff.Some? ==> SealsUnless(v, eff.value, false)
  {
  }

  lemma VoidingByCancel(v: View, o: OrderId, e: Event, now: Time, window: nat)
    requires Legal(v.order, v.delivery, o) && !Voided(v.order.status) && Cancels(e)
    ensures var eff := EffectOf(e, v, o, now, window);
      eff.Some? ==> SealsUnless(v, eff.value, Live(v.delivery) && e.CancelBySeller?)
  {
  }

  lemma VoidingByOther(v: View, o: OrderId, e: Event, now: Time, window: nat)
    requires Legal(v.order, v.delivery, o) && !Voided(v.order.status) && !ForDelivery(e) && !Cancels(e)
    ensures var eff := EffectOf(e, v, o, now, window);
      eff.Some? ==> SealsUnless(v, eff.value, Live(v.delivery) && e.RefundForDispute?)
  {
  }

  /** No step of the run voids the order while its delivery is live. */
  predicate Cautious(s: State, actions: seq<Action>, o: OrderId) {
    actions == []
    || var n := |actions| - 1; var t := Run(s, actions[..n]);
       Cautious(s, actions[..n], o) && (o < |t.orders| ==> !Reckless(ViewOf(t, o), CauseOf(t, actions[n], o)))
  }

  lemma CautiousStep(v: View, o: OrderId, c: Cause, tariff: Tariff, now: Time, window: nat)
    requires Good(v, o, tariff, now, window) && Fits(c, v, o) && !Reckless(v, c)
    requires Voided(v.order.status) ==> Sealed(v)
    ensures var v' := NextView(v, o, c, now, window); Voided(v'.order.status) ==> Sealed(v')
  {
    if Voided(v.order.status) { SealedStays(v, o, c, tariff, now, window); }
    else { VoidingSealsExactlyWhen(v, o, c, tariff, now, window); }
  }

  /** In a run where neither fires on the order while its delivery is live, CANCELLED and REFUNDED are always sealed,
      hence final by SealedIsFinal. */
  lemma {:induction false} CautiousRunsSeal(s: State, actions: seq<Action>, o: OrderId)
    requires Consistent(s) && Cautious(s, actions, o)
    requires o < |s.orders| && Voided(s.orders[o].status) ==> Sealed(ViewOf(s, o))
    ensures var s' := Run(s, actions); o < |s'.orders| && Voided(s'.orders[o].status) ==> Sealed(ViewOf(s', o))
  {
    if actions == [] {
    } else {
      var n := |actions| - 1;
      CautiousRunsSeal(s, actions[..n], o);
      EveryRunIsConsistent(s, actions[..n]);
      var t, a := Run(s, actions[..n]), actions[n];
      StepIsLocal(t, a);
      if o < |t.orders| {
        CausesFit(t, a, o);
        assert Good(ViewOf(t, o), o, t.tariff, t.now, t.releaseWindow);
        CautiousStep(ViewOf(t, o), o, CauseOf(t, a, o), t.tariff, t.now, t.releaseWindow);
      }
    }
  }

  // ---- The converse: a voided order with a live delivery can come back ----

  /** What the driver of a live delivery does next. */
  function Revival(d: DeliveryId, row: DeliveryRow, driver: User): seq<Action> {
    match row.status
    case Searching =>
      [OnDelivery(d, Claim(driver, true)), OnDelivery(d, PickUp(driver, row.pickupToken.GetOr(0), 0))]
    case PickedUp => [OnDelivery(d, DeliverByScan(row.driver.GetOr(driver), row.deliveryToken.GetOr(0)))]
    case _ => [OnDelivery(d, PickUp(row.driver.GetOr(driver), row.pickupToken.GetOr(0), 0))]
  }

  lemma RunOfOne(s: State, a: Action)
    ensures Run(s, [a]) == Step(s, a)
  {
    assert [a][..0] == [];
  }

  lemma RunOfTwo(s: State, a: Action, b: Action)
    ensures Run(s, [a, b]) == Step(Step(s, a), b)
  {
    assert [a, b][..1] == [a];
    RunOfOne(s, a);
  }

  lemma PickUpRevives(s: State, d: DeliveryId)
    requires Consistent(s) && d < |s.deliveries| && PrePickup(s.deliveries[d].status)
    requires s.deliveries[d].driver.Some? && s.deliveries[d].pickupToken.Some?
    requires s.deliveries[d].pickupConfirmedAt.None?
    ensures var row := s.deliveries[d];
      Step(s, OnDelivery(d, PickUp(row.driver.value, row.pickupToken.value, 0))).orders[row.order].status.InDelivery?
  {
  }

  lemma ClaimAssigns(s: State, d: DeliveryId, driver: User)
    requires Consistent(s) && d < |s.deliveries|
    requires s.deliveries[d].status.Searching? && s.deliveries[d].driver.None?
    ensures Step(s, OnDelivery(d, Claim(driver, true))).deliveries
         == s.deliveries[d := s.deliveries[d].(status := DeliveryStatus.Assigned, driver := Some(driver))]
  {
  }

  lemma ClaimAndPickUpRevive(s: State, d: DeliveryId, driver: User)
    requires Consistent(s) && d < |s.deliveries| && s.deliveries[d].status.Searching? && s.deliveries[d].driver.None?
    requires s.deliveries[d].pickupToken.Some? && s.deliveries[d].pickupConfirmedAt.None?
    ensures Revives(s, s.deliveries[d].order,
                    [OnDelivery(d, Claim(driver, true)),
                     OnDelivery(d, PickUp(driver, s.deliveries[d].pickupToken.GetOr(0), 0))])
  {
    var claim := OnDelivery(d, Claim(driver, true));
    var t := Step(s, claim);
    ClaimAssigns(s, d, driver);
    StepKeepsConsistent(s, claim);
    PickUpRevives(t, d);
    RunOfTwo(s, claim, OnDelivery(d, PickUp(driver, s.deliveries[d].pickupToken.value, 0)));
  }

  /** The run leaves the order with a status that is neither CANCELLED nor REFUNDED. */
  predicate Revives(s: State, o: OrderId, actions: seq<Action>) {
    o < |Run(s, actions).orders| && !Voided(Run(s, actions).orders[o].status)
  }

  predicate StaysVoided(s: State, o: OrderId, actions: seq<Action>) {
    o < |Run(s, actions).orders| && Voided(Run(s, actions).orders[o].status)
  }

  lemma LiveRowFacts(s: State, o: OrderId)
    requires Consistent(s) && o < |s.orders| && Live(LatestRow(s, o))
    ensures var d := LatestDelivery(s.deliveries, o);
      && d.Some? && s.deliveries[d.value].order == o
      && DeliveryOk(s.deliveries[d.value])
      && (BeforePickup(s.deliveries[d.value].status) || s.deliveries[d.value].status.PickedUp?)
  {
    assert Good(ViewOf(s, o), o, s.tariff, s.now, s.releaseWindow);
  }

  lemma LiveOrderCanComeBack(s: State, o: OrderId, driver: User)
    requires Consistent(s) && o < |s.orders| && Live(LatestRow(s, o))
    ensures var d := LatestDelivery(s.deliveries, o);
      d.Some? && Revives(s, o, Revival(d.value, s.deliveries[d.value], driver))
  {
    LiveRowFacts(s, o);
    var d := LatestDelivery(s.deliveries, o).value;
    if s.deliveries[d].status.Searching? { ClaimAndPickUpRevive(s, d, driver); }
    else { ScanRevives(s, d, driver); }
  }

  lemma OneRevives(s: State, o: OrderId, a: Action)
    requires o < |Step(s, a).orders| && !Voided(Step(s, a).orders[o].status)
    ensures Revives(s, o, [a])
  {
    RunOfOne(s, a);
  }

  /** A delivery that has a driver needs one more scan. */
  lemma ScanRevives(s: State, d: DeliveryId, driver: User)
    requires Consistent(s) && d < |s.deliveries| && DeliveryOk(s.deliveries[d])
    requires s.deliveries[d].status.PickedUp? || s.deliveries[d].status.Assigned? || s.deliveries[d].status.AtPickup?
    requires LatestDelivery(s.deliveries, s.deliveries[d].order) == Some(d)
    ensures Revives(s, s.deliveries[d].order, Revival(d, s.deliveries[d], driver))
  {
    var row := s.deliveries[d];
    if row.status.PickedUp? {
      DeliveryRevives(s, d);
      OneRevives(s, row.order, OnDelivery(d, DeliverByScan(row.driver.value, row.deliveryToken.value)));
    } else {
      PickUpRevives(s, d);
      OneRevives(s, row.order, OnDelivery(d, PickUp(row.driver.value, row.pickupToken.value, 0)));
    }
  }

  lemma DeliveryRevives(s: State, d: DeliveryId)
    requires Consistent(s) && d < |s.deliveries| && s.deliveries[d].status.PickedUp?
    requires LatestDelivery(s.deliveries, s.deliveries[d].order) == Some(d)
    ensures var row := s.deliveries[d];
      && row.driver.Some? && row.deliveryToken.Some?
      && var s' := Step(s, OnDelivery(d, DeliverByScan(row.driver.value, row.deliveryToken.value)));
         s'.orders[row.order].status.Delivered?
  {
    var o := s.deliveries[d].order;
    assert Good(ViewOf(s, o), o, s.tariff, s.now, s.releaseWindow);
  }

  /** A voided order stays voided in every run exactly when its delivery is not live. */
  lemma VoidIsFinalExactlyWhen(s: State, o: OrderId)
    requires Reachable(s) && o < |s.orders| && Voided(s.orders[o].status)
    ensures (forall actions :: StaysVoided(s, o, actions)) <==> !Live(LatestRow(s, o))
  {
    ReachableIsConsistent(s);
    if Live(LatestRow(s, o)) {
      LiveOrderCanComeBack(s, o, Person(0));
      var d := LatestDelivery(s.deliveries, o).value;
      assert !StaysVoided(s, o, Revival(d, s.deliveries[d], Person(0)));
    } else {
      forall actions ensures StaysVoided(s, o, actions) {
        SealedIsFinal(s, actions, o);
      }
    }
  }
}
