/** The driver's side: src/modules/deliveries/deliveries.service.ts on the shared database. */
module Deliveries {
  import opened Domain
  import opened Inventory
  import opened Ledger
  import opened Lifecycle
  import opened Marketplace
  import opened Consistency
  import opened Views
  import opened Runs
  import opened Store
  import opened Orders
  import opened Discipline
  import S = Strikes

  /** Writing a delivery row alone is the effect that keeps its order. */
  lemma DeliveryWrite(s: State, o: OrderId, d: DeliveryId, row: DeliveryRow)
    requires o < |s.orders| && d < |s.deliveries|
    ensures Apply(s, o, Some(d), Effect(s.orders[o], Some(row), false, [])) == s.(deliveries := s.deliveries[d := row])
  {
  }

  /** The state after a delivery was confirmed: row, order and ledger. */
  function AfterDelivery(s: State, d: DeliveryId, absent: bool): State
    requires d < |s.deliveries| && s.deliveries[d].order < |s.orders|
  {
    var row, o := s.deliveries[d], s.deliveries[d].order;
    var row' := HandedOver(row, absent, s.now);
    var deliveries, order := s.deliveries[d := row'], s.orders[o].(status := OrderStatus.Delivered);
    s.(deliveries := deliveries, orders := s.orders[o := order],
       entries := InsertAll(s.entries, CompletionRows(o, order, DeliveredRow(deliveries, o), s.now, s.releaseWindow)))
  }

  /** A delivery that is out is for an order IN_DELIVERY or voided, which takes deliveries. */
  lemma OutIsForDelivery(s: State, d: DeliveryId)
    requires Consistent(s) && d < |s.deliveries| && OutForDelivery(s.deliveries[d].status)
    ensures s.deliveries[d].order < |s.orders| && s.orders[s.deliveries[d].order].choice.Delivery?
  {
    OneDeliveryPerOrder(s, d);
    assert Good(ViewOf(s, s.deliveries[d].order), s.deliveries[d].order, s.tariff, s.now, s.releaseWindow);
  }

  lemma DeliverIsApply(s: State, d: DeliveryId, absent: bool)
    requires Linked(s) && d < |s.deliveries| && s.orders[s.deliveries[d].order].choice.Delivery?
    ensures var o := s.deliveries[d].order;
      var verdict := Deliver(o, s.orders[o], s.deliveries[d], absent, s.now, s.releaseWindow);
      verdict.outcome.Done? && Apply(s, o, Some(d), verdict.effect.value) == AfterDelivery(s, d, absent)
  {
    HandedOverIsLatest(s, d, absent);
  }

  lemma HandedOverIsLatest(s: State, d: DeliveryId, absent: bool)
    requires Linked(s) && d < |s.deliveries|
    ensures var row' := HandedOver(s.deliveries[d], absent, s.now);
      DeliveredRow(s.deliveries[d := row'], s.deliveries[d].order) == Some(row')
  {
    var row' := HandedOver(s.deliveries[d], absent, s.now);
    var o := row'.order;
    OneDeliveryPerOrder(s, d);
    LatestAfterWrite(s.deliveries, d, row', o);
    WriteKeepsLinked(s.deliveries, o, Some(d), Some(row'), |s.orders|);
    DeliveredRowIsLatest(s.deliveries[d := row'], |s.orders|, o);
  }

  /** What both confirmations answer, given that the order takes deliveries. */
  lemma ScanIsHandled(s: State, d: DeliveryId, driver: User, scanned: nat)
    requires Linked(s) && d < |s.deliveries|
    requires OutForDelivery(s.deliveries[d].status) ==> s.orders[s.deliveries[d].order].choice.Delivery?
    ensures var row := s.deliveries[d]; var error := DeliverError(row, driver);
      Handle(s, OnDelivery(d, DeliverByScan(driver, scanned)))
      == if error.Some? then Reply(s, Outcome.Failed(error.value))
         else if row.deliveryToken != Some(scanned) then Reply(s, Outcome.Failed(BadRequest))
         else Reply(AfterDelivery(s, d, false), Done)
  {
    if OutForDelivery(s.deliveries[d].status) { DeliverIsApply(s, d, false); }
  }

  lemma AbsentIsHandled(s: State, d: DeliveryId, driver: User, photo: bool, gps: bool)
    requires Linked(s) && d < |s.deliveries|
    requires OutForDelivery(s.deliveries[d].status) ==> s.orders[s.deliveries[d].order].choice.Delivery?
    ensures var row := s.deliveries[d]; var error := DeliverError(row, driver);
      Handle(s, OnDelivery(d, DeliverAbsent(driver, photo, gps)))
      == if error.Some? then Reply(s, Outcome.Failed(error.value))
         else if !photo || !gps then Reply(s, Outcome.Failed(BadRequest))
         else Reply(AfterDelivery(s, d, true), Done)
  {
    if OutForDelivery(s.deliveries[d].status) { DeliverIsApply(s, d, true); }
  }

  /** The state after a report of an absent seller: delivery and order cancelled, refund, and the driver's pay. */
  function AfterReport(s: State, d: DeliveryId, driver: User, stripe: StripeReply): State
    requires d < |s.deliveries| && s.deliveries[d].order < |s.orders|
  {
    var row, o := s.deliveries[d], s.deliveries[d].order;
    var before := s.orders[o];
    var order := RefundIfNeeded(CancelAndRestock(before), stripe);
    s.(deliveries := s.deliveries[d := row.(status := DeliveryStatus.Cancelled, sellerUnavailableAt := Some(s.now))],
       orders := s.orders[o := order],
       listings := if RestocksNow(before, order) then Restocked(s.listings, before.terms.items) else s.listings,
       refundLog := if RefundsNow(before, order) then s.refundLog + [o] else s.refundLog,
       entries := InsertAll(Reversed(s.entries, o, RefundsNow(before, order), false),
                            CompensationRows(o, driver, before.terms.fulfillmentFeeCents, s.now)))
  }

  lemma ReportIsHandled(s: State, d: DeliveryId, driver: User, gps: bool, stripe: StripeReply)
    requires d < |s.deliveries| && s.deliveries[d].order < |s.orders|
    ensures var error := ReportError(s.orders[s.deliveries[d].order], s.deliveries[d], driver, gps);
      Handle(s, OnDelivery(d, ReportUnavailable(driver, gps, stripe)))
      == if error.Some? then Reply(s, Outcome.Failed(error.value)) else Reply(AfterReport(s, d, driver, stripe), Done)
  {
  }

  /** What a claim is answered. */
  lemma ClaimIsHandled(s: State, d: DeliveryId, driver: User, allowed: bool)
    requires Linked(s)
    ensures Handle(s, OnDelivery(d, Event.Claim(driver, allowed)))
         == if !allowed then Reply(s, Outcome.Failed(Forbidden))
            else if Claimable(s, d)
            then Reply(s.(deliveries := s.deliveries[d := s.deliveries[d].(status := DeliveryStatus.Assigned,
                                                                           driver := Some(driver))]), Done)
            else Reply(s, Outcome.Failed(Conflict))
  {
    if Claimable(s, d) {
      DeliveryWrite(s, s.deliveries[d].order, d,
                    s.deliveries[d].(status := DeliveryStatus.Assigned, driver := Some(driver)));
    }
  }

  predicate Claimable(s: State, d: DeliveryId) {
    d < |s.deliveries| && s.deliveries[d].status.Searching? && s.deliveries[d].driver.None?
  }

  class DeliveriesService {
    const db: Database
    const orders: OrdersService

    constructor (db: Database, orders: OrdersService)
      ensures this.db == db && this.orders == orders
    {
      this.db, this.orders := db, orders;
    }

    /** A suspended driver is turned away; otherwise the guarded UPDATE of a claim matches a row only while nobody holds
        it. */
    method Claim(d: DeliveryId, driver: User, eligible: bool) returns (outcome: Outcome)
      requires db.Valid()
      modifies db
      ensures var m := Market(old(db.Snapshot()), orders.strikes.Snapshot());
        db.Answers(Gated(m, OnDelivery(d, Event.Claim(driver, eligible))), outcome)
    {
      var allowed := driver !in orders.strikes.suspended && eligible;
      StepKeepsConsistent(db.Snapshot(), OnDelivery(d, Event.Claim(driver, allowed)));
      ClaimIsHandled(db.Snapshot(), d, driver, allowed);
      if !allowed { return Outcome.Failed(Forbidden); }
      var updated := 0;
      if d < |db.deliveries| && db.deliveries[d].status.Searching? && db.deliveries[d].driver.None? {
        var claimed := db.deliveries[d].(status := DeliveryStatus.Assigned, driver := Some(driver));
        db.deliveries := db.deliveries[d := claimed];
        updated := 1;
      }
      if updated == 0 { return Outcome.Failed(Conflict); }
      outcome := Done;
    }

    /** `transition` with `from: [ASSIGNED]`, `to: AT_PICKUP` */
    method ArriveAtPickup(d: DeliveryId, driver: User) returns (outcome: Outcome)
      requires db.Valid()
      modifies db
      ensures db.Answers(OnDelivery(d, Arrive(driver)), outcome)
    {
      StepKeepsConsistent(db.Snapshot(), OnDelivery(d, Arrive(driver)));
      if d >= |db.deliveries| { return Outcome.Failed(NotFound); }
      var delivery := db.deliveries[d];
      if delivery.driver != Some(driver) { return Outcome.Failed(Forbidden); }
      if !delivery.status.Assigned? { return Outcome.Failed(Conflict); }
      DeliveryWrite(db.Snapshot(), delivery.order, d, delivery.(status := DeliveryStatus.AtPickup));
      db.deliveries := db.deliveries[d := delivery.(status := DeliveryStatus.AtPickup)];
      outcome := Done;
    }

    method ConfirmPickup(d: DeliveryId, driver: User, scanned: nat, minted: nat) returns (outcome: Outcome)
      requires db.Valid()
      modifies db
      ensures db.Answers(OnDelivery(d, PickUp(driver, scanned, minted)), outcome)
    {
      StepKeepsConsistent(db.Snapshot(), OnDelivery(d, PickUp(driver, scanned, minted)));
      if d >= |db.deliveries| { return Outcome.Failed(NotFound); }
      var delivery := db.deliveries[d];
      if delivery.driver != Some(driver) { return Outcome.Failed(Forbidden); }
      if delivery.pickupConfirmedAt.Some? || OutForDelivery(delivery.status) || delivery.status.Delivered? {
        return Outcome.Failed(Conflict);
      }
      if !PrePickup(delivery.status) { return Outcome.Failed(Conflict); }
      if delivery.pickupToken.None? || delivery.pickupToken.value != scanned { return Outcome.Failed(BadRequest); }
      var collected := delivery.(status := DeliveryStatus.PickedUp, pickupConfirmedAt := Some(db.now),
                                 deliveryToken := Some(minted));
      db.deliveries := db.deliveries[d := collected];
      db.orders := db.orders[delivery.order := db.orders[delivery.order].(status := OrderStatus.InDelivery)];
      outcome := Done;
    }

    method CheckOutForDelivery(delivery: DeliveryRow, driver: User) returns (error: Option<Error>)
      ensures error == DeliverError(delivery, driver)
    {
      if delivery.driver != Some(driver) { return Some(Forbidden); }
      if delivery.deliveredConfirmedAt.Some? || delivery.status.Delivered? { return Some(Conflict); }
      if !OutForDelivery(delivery.status) { return Some(Conflict); }
      error := None;
    }

    /** Marks the delivery DELIVERED, then completes and credits its order. */
    method Complete(d: DeliveryId, absent: bool) returns (outcome: Outcome)
      requires orders.db == db && orders.wallet.db == db
      requires d < |db.deliveries| && db.deliveries[d].order < |db.orders|
      requires db.orders[db.deliveries[d].order].choice.Delivery?
      modifies db
      ensures db.Snapshot() == AfterDelivery(old(db.Snapshot()), d, absent) && outcome.Done?
    {
      var delivery := db.deliveries[d];
      var delivered := delivery.(status := DeliveryStatus.Delivered, deliveredAt := Some(db.now),
                                 deliveredConfirmedAt := Some(db.now));
      if absent { delivered := delivered.(deliveredAsAbsent := true); }
      db.deliveries := db.deliveries[d := delivered];
      outcome := orders.ConfirmDeliveredByDriver(delivery.order);
    }

    method ConfirmDelivery(d: DeliveryId, driver: User, scanned: nat) returns (outcome: Outcome)
      requires db.Valid() && orders.db == db && orders.wallet.db == db
      modifies db
      ensures db.Answers(OnDelivery(d, DeliverByScan(driver, scanned)), outcome)
    {
      StepKeepsConsistent(db.Snapshot(), OnDelivery(d, DeliverByScan(driver, scanned)));
      if d >= |db.deliveries| { return Outcome.Failed(NotFound); }
      var delivery := db.deliveries[d];
      if OutForDelivery(delivery.status) { OutIsForDelivery(db.Snapshot(), d); }
      ScanIsHandled(db.Snapshot(), d, driver, scanned);
      var error := CheckOutForDelivery(delivery, driver);
      if error.Some? { return Outcome.Failed(error.value); }
      if delivery.deliveryToken.None? || delivery.deliveryToken.value != scanned { return Outcome.Failed(BadRequest); }
      outcome := Complete(d, false);
    }

    method ConfirmAbsentDropoff(d: DeliveryId, driver: User, photo: bool, gps: bool) returns (outcome: Outcome)
      requires db.Valid() && orders.db == db && orders.wallet.db == db
      modifies db
      ensures db.Answers(OnDelivery(d, DeliverAbsent(driver, photo, gps)), outcome)
    {
      StepKeepsConsistent(db.Snapshot(), OnDelivery(d, DeliverAbsent(driver, photo, gps)));
      if d >= |db.deliveries| { return Outcome.Failed(NotFound); }
      var delivery := db.deliveries[d];
      if OutForDelivery(delivery.status) { OutIsForDelivery(db.Snapshot(), d); }
      AbsentIsHandled(db.Snapshot(), d, driver, photo, gps);
      var error := CheckOutForDelivery(delivery, driver);
      if error.Some? { return Outcome.Failed(error.value); }
      if !photo { return Outcome.Failed(BadRequest); }
      if !gps { return Outcome.Failed(BadRequest); }
      outcome := Complete(d, true);
    }

    method CheckReport(order: Order, delivery: DeliveryRow, driver: User, gps: bool) returns (error: Option<Error>)
      ensures error == ReportError(order, delivery, driver, gps)
    {
      if delivery.driver != Some(driver) { return Some(Forbidden); }
      if delivery.sellerUnavailableAt.Some? || delivery.status.Cancelled? || delivery.status.Failed? {
        return Some(Conflict);
      }
      if delivery.pickupConfirmedAt.Some? || OutForDelivery(delivery.status) || delivery.status.Delivered? {
        return Some(Conflict);
      }
      if AlreadyResolved(order.status) { return Some(Conflict); }
      if !gps { return Some(BadRequest); }
      error := None;
    }

    /** The writes of an accepted report. */
    method Report(d: DeliveryId, driver: User, stripe: StripeReply, struck: bool) returns (outcome: Outcome)
      requires orders.db == db && orders.wallet.db == db
      requires d < |db.deliveries| && db.deliveries[d].order < |db.orders|
      requires !AlreadyResolved(db.orders[db.deliveries[d].order].status)
      modifies db, orders.strikes
      ensures db.Snapshot() == AfterReport(old(db.Snapshot()), d, driver, stripe) && outcome.Done?
      ensures orders.strikes.Snapshot() == Punished(old(orders.strikes.Snapshot()),
        Some(SellerStrike(old(db.Snapshot()), old(db.deliveries)[d].order, 1, "SELLER_UNAVAILABLE")), struck)
    {
      var delivery := db.deliveries[d];
      var cancelled := delivery.(status := DeliveryStatus.Cancelled, sellerUnavailableAt := Some(db.now));
      db.deliveries := db.deliveries[d := cancelled];
      outcome := orders.CancelForSellerUnavailable(delivery.order, driver, stripe, struck);
    }

    method ReportSellerUnavailable(d: DeliveryId, driver: User, gps: bool, stripe: StripeReply, struck: bool)
      returns (outcome: Outcome)
      requires db.Valid() && orders.db == db && orders.wallet.db == db
      modifies db, orders.strikes
      ensures db.Answers(OnDelivery(d, ReportUnavailable(driver, gps, stripe)), outcome)
      ensures orders.strikes.Snapshot() == Punished(old(orders.strikes.Snapshot()),
        Penalty(old(db.Snapshot()), OnDelivery(d, ReportUnavailable(driver, gps, stripe)), outcome), struck)
    {
      StepKeepsConsistent(db.Snapshot(), OnDelivery(d, ReportUnavailable(driver, gps, stripe)));
      if d >= |db.deliveries| { return Outcome.Failed(NotFound); }
      ReportIsHandled(db.Snapshot(), d, driver, gps, stripe);
      var error := CheckReport(db.orders[db.deliveries[d].order], db.deliveries[d], driver, gps);
      if error.Some? { return Outcome.Failed(error.value); }
      outcome := Report(d, driver, stripe, struck);
    }
  }
}
