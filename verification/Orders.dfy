/** The order service: src/modules/orders/orders.service.ts on the shared database. */
module Orders {
  import opened Domain
  import opened Pricing
  import opened Inventory
  import opened Ledger
  import opened Lifecycle
  import opened Marketplace
  import opened Views
  import opened Runs
  import opened Store
  import opened Discipline
  import S = Strikes

  /** Writing an order row alone is the effect that keeps its delivery. */
  lemma OrderWrite(s: State, o: OrderId, d: Option<DeliveryId>, order: Order)
    requires o < |s.orders| && (d.Some? ==> d.value < |s.deliveries|)
    requires !RefundsNow(s.orders[o], order) && !RestocksNow(s.orders[o], order)
    ensures Apply(s, o, d, Effect(order, LocalAt(s, o, d).delivery, false, [])) == s.(orders := s.orders[o := order])
  {
  }

  /** The tables after an effect that books nothing. */
  lemma ApplyWithoutBooking(s: State, o: OrderId, d: Option<DeliveryId>, order: Order, row: Option<DeliveryRow>)
    requires o < |s.orders| && (d.Some? ==> d.value < |s.deliveries|)
    requires d.None? ==> row.None?
    ensures var before := s.orders[o];
      Apply(s, o, d, Effect(order, row, false, []))
      == s.(orders := s.orders[o := order],
            deliveries := if d.Some? && row.Some? then s.deliveries[d.value := row.value] else s.deliveries,
            listings := if RestocksNow(before, order) then Restocked(s.listings, before.terms.items) else s.listings,
            entries := if RefundsNow(before, order) then Update(Reverse(o, false), s.entries) else s.entries,
            refundLog := if RefundsNow(before, order) then s.refundLog + [o] else s.refundLog)
  {
  }

  /** The state after a cancellation with its refund, the delivery cancelled with it or not. */
  function AfterCancel(s: State, o: OrderId, cancelDelivery: bool, stripe: StripeReply): State
    requires o < |s.orders|
  {
    var before, d := s.orders[o], LatestDelivery(s.deliveries, o);
    var order := RefundIfNeeded(CancelAndRestock(before), stripe);
    s.(orders := s.orders[o := order],
       deliveries := if cancelDelivery && d.Some?
                     then s.deliveries[d.value := s.deliveries[d.value].(status := DeliveryStatus.Cancelled)]
                     else s.deliveries,
       listings := if RestocksNow(before, order) then Restocked(s.listings, before.terms.items) else s.listings,
       entries := if RefundsNow(before, order) then Update(Reverse(o, false), s.entries) else s.entries,
       refundLog := if RefundsNow(before, order) then s.refundLog + [o] else s.refundLog)
  }

  lemma CancelIsApplied(s: State, o: OrderId, cancelDelivery: bool, stripe: StripeReply)
    requires o < |s.orders|
    ensures var d := LatestDelivery(s.deliveries, o);
      var l := LocalAt(s, o, d);
      Apply(s, o, d, Effect(RefundIfNeeded(CancelAndRestock(l.order), stripe),
                            if cancelDelivery then CancelDelivery(l.delivery) else l.delivery, false, []))
      == AfterCancel(s, o, cancelDelivery, stripe)
  {
    var d := LatestDelivery(s.deliveries, o);
    var l := LocalAt(s, o, d);
    ApplyWithoutBooking(s, o, d, RefundIfNeeded(CancelAndRestock(l.order), stripe),
                        if cancelDelivery then CancelDelivery(l.delivery) else l.delivery);
  }

  /** What the transaction of a seller's cancel and the refund after it write. */
  lemma CommitIsHandled(s: State, o: OrderId, stripe: StripeReply)
    requires o in s.cancelsInFlight && o < |s.orders|
    ensures var before := s.orders[o];
      var order := RefundIfNeeded(if SellerCancellable(before.status) then CancelAndRestock(before) else before,
                                  stripe);
      Handle(s, CommitCancel(o, stripe))
      == Reply(s.(cancelsInFlight := s.cancelsInFlight - multiset{o},
                  orders := s.orders[o := order],
                  listings := if RestocksNow(before, order) then Restocked(s.listings, before.terms.items)
                              else s.listings,
                  entries := if RefundsNow(before, order) then Update(Reverse(o, false), s.entries) else s.entries,
                  refundLog := if RefundsNow(before, order) then s.refundLog + [o] else s.refundLog), Done)
  {
    var before := s.orders[o];
    ApplyWithoutBooking(s.(cancelsInFlight := s.cancelsInFlight - multiset{o}), o, LatestDelivery(s.deliveries, o),
                        RefundIfNeeded(if SellerCancellable(before.status) then CancelAndRestock(before) else before,
                                       stripe),
                        LatestRow(s, o));
  }

  /** The tables after an effect that keeps the delivery and only books. */
  lemma ApplyBooking(s: State, o: OrderId, order: Order, booked: seq<Entry>)
    requires o < |s.orders| && !RefundsNow(s.orders[o], order) && !RestocksNow(s.orders[o], order)
    ensures Apply(s, o, LatestDelivery(s.deliveries, o), Effect(order, LatestRow(s, o), false, booked))
         == s.(orders := s.orders[o := order], entries := InsertAll(s.entries, booked))
  {
  }

  /** The state after a counter pickup: order and ledger. */
  function AfterPickup(s: State, o: OrderId): State
    requires o < |s.orders|
  {
    var order := s.orders[o].(status := OrderStatus.Delivered);
    s.(orders := s.orders[o := order],
       entries := InsertAll(s.entries, CompletionRows(o, order, DeliveredRow(s.deliveries, o), s.now, s.releaseWindow)))
  }

  lemma PickupIsHandled(s: State, o: OrderId, caller: User)
    requires Linked(s) && o < |s.orders| && s.orders[o].choice.Pickup? && s.orders[o].status.Ready?
    requires s.orders[o].terms.seller == caller || s.orders[o].terms.buyer == caller
    ensures Handle(s, OnOrder(o, Event.ConfirmPickup(caller))) == Reply(AfterPickup(s, o), Done)
  {
    var order := s.orders[o].(status := OrderStatus.Delivered);
    PickupIsDecided(s, o, caller);
    ApplyBooking(s, o, order, CompletionRows(o, order, DeliveredRow(s.deliveries, o), s.now, s.releaseWindow));
  }

  lemma PickupIsDecided(s: State, o: OrderId, caller: User)
    requires Linked(s) && o < |s.orders| && s.orders[o].choice.Pickup? && s.orders[o].status.Ready?
    requires s.orders[o].terms.seller == caller || s.orders[o].terms.buyer == caller
    ensures var order := s.orders[o].(status := OrderStatus.Delivered);
      var rows := CompletionRows(o, order, DeliveredRow(s.deliveries, o), s.now, s.releaseWindow);
      Decide(Event.ConfirmPickup(caller), o, LocalAt(s, o, LatestDelivery(s.deliveries, o)), s.now, s.releaseWindow)
      == Verdict(Some(Effect(order, LatestRow(s, o), false, rows)), Done)
  {
    DeliveredRowIsLatest(s.deliveries, |s.orders|, o);
    assert LatestRow(s, o) == DeliveryAt(s.deliveries, o);
  }

  /** The state after a driver disappeared: delivery FAILED, order CANCELLED, refund, and the settlement. */
  function AfterDisappearance(s: State, d: DeliveryId, stripe: StripeReply): State
    requires d < |s.deliveries| && s.deliveries[d].order < |s.orders|
  {
    var row, o := s.deliveries[d], s.deliveries[d].order;
    var before := s.orders[o];
    var order := RefundIfNeeded(before.(status := OrderStatus.Cancelled), stripe);
    s.(deliveries := s.deliveries[d := row.(status := DeliveryStatus.Failed)],
       orders := s.orders[o := order],
       refundLog := if RefundsNow(before, order) then s.refundLog + [o] else s.refundLog,
       entries := InsertAll(Reversed(s.entries, o, RefundsNow(before, order), true),
                            DisappearanceRows(o, before, row.driver, s.now)))
  }

  /** What the watchdog does: nothing unless it is due. */
  lemma TimeoutIsHandled(s: State, d: DeliveryId, stripe: StripeReply)
    requires d < |s.deliveries| && s.deliveries[d].order < |s.orders|
    ensures Handle(s, OnDelivery(d, DriverTimeout(stripe)))
         == if TimeoutDue(s.orders[s.deliveries[d].order], s.deliveries[d])
            then Reply(AfterDisappearance(s, d, stripe), Done) else Reply(s, Skipped)
  {
  }

  predicate Unfinished(d: Option<DeliveryRow>) {
    d.Some? && !d.value.status.Cancelled? && !d.value.status.Failed?
  }

  /** What a seller who cannot provide is answered. */
  lemma CannotProvideIsHandled(s: State, o: OrderId, caller: User, stripe: StripeReply)
    requires o < |s.orders|
    ensures var d := LatestDelivery(s.deliveries, o); var l := LocalAt(s, o, d);
      var error := CannotProvideError(l, caller);
      Handle(s, OnOrder(o, CannotProvide(caller, stripe)))
      == if error.Some? then Reply(s, Outcome.Failed(error.value))
         else Reply(Apply(s, o, d, Effect(RefundIfNeeded(CancelAndRestock(l.order), stripe),
                                          if Unfinished(l.delivery) then CancelDelivery(l.delivery) else l.delivery,
                                          false, [])), Done)
  {
  }

  /** What an accepted dispute writes. */
  lemma FilingIsHandled(s: State, o: OrderId, caller: User, kind: DisputeKind, proof: bool, description: bool,
                        stripe: StripeReply)
    requires o < |s.orders| && FilingError(s, o, caller, kind, proof, description).None?
    ensures Handle(s, FileDispute(o, caller, kind, proof, description, stripe))
         == Reply(if DisputeDecision(kind, LatestRow(s, o)).1
                  then Perform(Filed(s, o, kind), o, LatestDelivery(s.deliveries, o),
                               Event.RefundForDispute(stripe)).state
                  else Filed(s, o, kind), Done)
  {
  }

  /** What placing a valid cart in stock writes. */
  lemma PlacingIsAppend(s: State, p: Placement)
    requires p.gate.None? && ValidCart(s.listings, p.cart, p.choice)
    requires CanTake(s.listings, Snapshots(s.listings, p.cart, p.choice))
    ensures Handle(s, PlaceOrder(p))
         == Reply(s.(orders := s.orders + [OrderFor(s.listings, p, s.tariff)],
                     listings := Taken(s.listings, Snapshots(s.listings, p.cart, p.choice))),
                  if p.intent.NoIntent? then Outcome.Failed(Unavailable) else Done)
  {
  }

  lemma ShortOfStock(listings: Listings, items: seq<OrderItem>, l: ListingId)
    requires exists i :: 0 <= i < |items| && items[i].listing == l
    requires !Stocks(listings, l, Quantity(items, l))
    ensures !CanTake(listings, items)
  {
  }

  /** The decrement has gone through for the listings of `done` and has not touched the others. */
  predicate PartlyTaken(before: Listings, listings: Listings, items: seq<OrderItem>, done: set<ListingId>) {
    && listings.Keys == before.Keys
    && (forall l :: l in done ==> Stocks(before, l, Quantity(items, l)))
    && forall l :: l in before ==>
         listings[l] == if l in done then WithPortions(before[l], 0 - Quantity(items, l)) else before[l]
  }

  lemma TakeOne(before: Listings, listings: Listings, items: seq<OrderItem>, done: set<ListingId>, l: ListingId)
    requires PartlyTaken(before, listings, items, done) && l !in done
    ensures Stocks(listings, l, Quantity(items, l)) == Stocks(before, l, Quantity(items, l))
    ensures Stocks(listings, l, Quantity(items, l)) ==>
      PartlyTaken(before, listings[l := WithPortions(listings[l], 0 - Quantity(items, l))], items, done + {l})
  {
  }

  lemma AllTaken(before: Listings, listings: Listings, items: seq<OrderItem>, done: set<ListingId>)
    requires PartlyTaken(before, listings, items, done)
    requires forall l :: l in done <==> exists i :: 0 <= i < |items| && items[i].listing == l
    ensures CanTake(before, items) && listings == Taken(before, items)
  {
    forall l | l in before ensures listings[l] == WithPortions(before[l], 0 - Quantity(items, l)) {
      if l !in done { QuantityNeedsALine(items, l); }
    }
  }

  predicate LineOk(listing: Listing, line: CartLine, seller: User, choice: Fulfillment) {
    && listing.seller == seller && listing.orderable && Serves(listing, choice)
    && forall k :: 0 <= k < |line.addOns| ==> line.addOns[k] in listing.addOns
  }

  class OrdersService {
    const db: Database
    const wallet: WalletService
    const strikes: S.StrikesService

    constructor (db: Database, wallet: WalletService, strikes: S.StrikesService)
      ensures this.db == db && this.wallet == wallet && this.strikes == strikes
    {
      this.db, this.wallet, this.strikes := db, wallet, strikes;
    }

    // ---- Payment and kitchen ----

    method ConfirmPaymentForBuyer(o: OrderId, caller: User, paid: bool) returns (outcome: Outcome)
      requires db.Valid()
      modifies db
      ensures db.Answers(OnOrder(o, ConfirmPayment(caller, paid)), outcome)
    {
      StepKeepsConsistent(db.Snapshot(), OnOrder(o, ConfirmPayment(caller, paid)));
      if o >= |db.orders| { return Outcome.Failed(NotFound); }
      var order := db.orders[o];
      if order.terms.buyer != caller { return Outcome.Failed(Forbidden); }
      if order.status.Pending? {
        if order.paymentIntent.None? || !paid { return Outcome.Failed(Conflict); }
        OrderWrite(db.Snapshot(), o, LatestDelivery(db.deliveries, o), order.(status := OrderStatus.Confirmed));
        db.orders := db.orders[o := order.(status := OrderStatus.Confirmed)];
      }
      outcome := Done;
    }

    method StartPreparing(o: OrderId, caller: User) returns (outcome: Outcome)
      requires db.Valid()
      modifies db
      ensures db.Answers(OnOrder(o, Event.StartPreparing(caller)), outcome)
    {
      StepKeepsConsistent(db.Snapshot(), OnOrder(o, Event.StartPreparing(caller)));
      if o >= |db.orders| { return Outcome.Failed(NotFound); }
      var order := db.orders[o];
      if order.terms.seller != caller { return Outcome.Failed(Forbidden); }
      if !order.status.Confirmed? { return Outcome.Failed(Conflict); }
      OrderWrite(db.Snapshot(), o, LatestDelivery(db.deliveries, o), order.(status := OrderStatus.Preparing));
      db.orders := db.orders[o := order.(status := OrderStatus.Preparing)];
      outcome := Done;
    }

    method MarkReady(o: OrderId, caller: User, token: nat) returns (outcome: Outcome)
      requires db.Valid()
      modifies db
      ensures db.Answers(OnOrder(o, Event.MarkReady(caller, token)), outcome)
    {
      StepKeepsConsistent(db.Snapshot(), OnOrder(o, Event.MarkReady(caller, token)));
      if o >= |db.orders| { return Outcome.Failed(NotFound); }
      var existing := db.orders[o];
      if existing.terms.seller != caller { return Outcome.Failed(Forbidden); }
      if !existing.status.Preparing? { return Outcome.Failed(Conflict); }
      db.orders := db.orders[o := existing.(status := OrderStatus.Ready)];
      if existing.choice.Delivery? {
        db.deliveries := db.deliveries + [NewDelivery(o, token)];
      }
      outcome := Done;
    }

    method HandleNoDriverTimeout(o: OrderId) returns (outcome: Outcome)
      requires db.Valid()
      modifies db
      ensures db.Answers(OnOrder(o, NoDriverTimeout), outcome)
    {
      StepKeepsConsistent(db.Snapshot(), OnOrder(o, NoDriverTimeout));
      if o >= |db.orders| { return Skipped; }
      var order := db.orders[o];
      var latest := LatestDelivery(db.deliveries, o);
      if latest.Some? {
        var delivery := db.deliveries[latest.value];
        if delivery.driver.Some? || !delivery.status.Searching? { return Skipped; }
      }
      if !order.status.Ready? || !order.choice.Delivery? { return Skipped; }
      OrderWrite(db.Snapshot(), o, latest, order.(status := OrderStatus.NoDriverAvailable));
      db.orders := db.orders[o := order.(status := OrderStatus.NoDriverAvailable)];
      outcome := Done;
    }

    // ---- Shared writes ----

    /** Adds up quantities by listing, since a listing may appear in several lines. */
    method AggregateByListing(items: seq<OrderItem>) returns (byListing: map<ListingId, nat>)
      ensures forall l :: l in byListing <==> exists i :: 0 <= i < |items| && items[i].listing == l
      ensures forall l :: l in byListing ==> byListing[l] == Quantity(items, l)
    {
      byListing := map[];
      for i := 0 to |items|
        invariant forall l :: l in byListing <==> exists k :: 0 <= k < i && items[k].listing == l
        invariant forall l :: l in byListing ==> byListing[l] == Quantity(items[..i], l)
      {
        var item := items[i];
        assert items[..i + 1][..i] == items[..i];
        var before := 0;
        if item.listing in byListing { before := byListing[item.listing]; }
        else { QuantityNeedsALine(items[..i], item.listing); }
        byListing := byListing[item.listing := before + item.quantity];
      }
      assert items[..|items|] == items;
    }

    /** Returns the stock of an order's items, one UPDATE per listing. */
    method RestoreInventory(items: seq<OrderItem>)
      modifies db`listings
      ensures db.listings == Restocked(old(db.listings), items)
    {
      var byListing := AggregateByListing(items);
      ghost var before := db.listings;
      var todo := byListing.Keys;
      while todo != {}
        invariant todo <= byListing.Keys
        invariant db.listings.Keys == before.Keys
        invariant forall l :: l in before ==>
          db.listings[l] == if l in byListing && l !in todo then WithPortions(before[l], byListing[l]) else before[l]
        decreases todo
      {
        var l :| l in todo;
        if l in db.listings { db.listings := db.listings[l := WithPortions(db.listings[l], byListing[l])]; }
        todo := todo - {l};
      }
      forall l | l in before ensures db.listings[l] == WithPortions(before[l], Quantity(items, l)) {
        if l !in byListing { QuantityNeedsALine(items, l); }
      }
    }

    /** `refundOrderIfNeeded`: one full refund through Stripe, then the reversal of the order's PENDING rows. */
    method RefundOrderIfNeeded(o: OrderId, stripe: StripeReply)
      requires o < |db.orders|
      modifies db`orders, db`entries, db`refundLog
      ensures db.orders == old(db.orders)[o := RefundIfNeeded(old(db.orders)[o], stripe)]
      ensures RefundsNow(old(db.orders)[o], db.orders[o]) ==>
        db.entries == Update(Reverse(o, false), old(db.entries)) && db.refundLog == old(db.refundLog) + [o]
      ensures !RefundsNow(old(db.orders)[o], db.orders[o]) ==>
        db.entries == old(db.entries) && db.refundLog == old(db.refundLog)
    {
      var order := db.orders[o];
      if order.refund.Some? { return; }
      if order.paymentIntent.None? { return; }
      match stripe
      case Refused => return;
      case Accepted(id) =>
        db.refundLog := db.refundLog + [o];
        db.orders := db.orders[o := order.(refund := Some(id))];
        db.entries := Update(Reverse(o, false), db.entries);
    }

    /** Marks the order CANCELLED and returns its stock unless that was done before. */
    method CancelAndRestore(o: OrderId)
      requires o < |db.orders|
      modifies db`orders, db`listings
      ensures db.orders == old(db.orders)[o := CancelAndRestock(old(db.orders)[o])]
      ensures db.listings == if RestocksNow(old(db.orders)[o], db.orders[o])
                             then Restocked(old(db.listings), old(db.orders)[o].terms.items) else old(db.listings)
    {
      var order := db.orders[o];
      if !order.inventoryRestored { RestoreInventory(order.terms.items); }
      db.orders := db.orders[o := order.(status := OrderStatus.Cancelled, inventoryRestored := true)];
    }

    // ---- Placing an order ----

    /** The per-listing and per-add-on checks of the cart; `gate` stands for everything else. */
    method LoadAndValidateCart(cart: seq<CartLine>, choice: Fulfillment) returns (ok: bool)
      ensures ok <==> ValidCart(db.listings, cart, choice)
    {
      if |cart| == 0 { return false; }
      for i := 0 to |cart|
        invariant forall k :: 0 <= k < i ==> cart[k].listing in db.listings
      {
        if cart[i].listing !in db.listings { return false; }
      }
      var seller := db.listings[cart[0].listing].seller;
      for i := 0 to |cart|
        invariant forall k :: 0 <= k < i ==> LineOk(db.listings[cart[k].listing], cart[k], seller, choice)
      {
        var listing := db.listings[cart[i].listing];
        if listing.seller != seller || !listing.orderable || !Serves(listing, choice) { return false; }
        for j := 0 to |cart[i].addOns|
          invariant forall k :: 0 <= k < j ==> cart[i].addOns[k] in listing.addOns
        {
          if cart[i].addOns[j] !in listing.addOns { return false; }
        }
      }
      ok := true;
    }

    /** The subtotal summed line by line from the live prices, then split by the pricing function. */
    method ComputeTotals(cart: seq<CartLine>, isPremium: bool, choice: Fulfillment) returns (totals: OrderTotals)
      requires ValidCart(db.listings, cart, choice)
      ensures totals == PriceOrder(Subtotal(Snapshots(db.listings, cart, choice)), isPremium, choice.Delivery?,
                                   db.tariff)
    {
      ghost var items := Snapshots(db.listings, cart, choice);
      var subtotal := 0;
      for i := 0 to |cart|
        invariant subtotal == Subtotal(items[..i])
      {
        var listing := db.listings[cart[i].listing];
        var addOnsCents := 0;
        ghost var prices := AddOnPrices(listing.addOns, cart[i].addOns);
        for j := 0 to |cart[i].addOns|
          invariant addOnsCents == Total(prices[..j])
        {
          addOnsCents := addOnsCents + listing.addOns[cart[i].addOns[j]];
          assert prices[..j + 1][..j] == prices[..j];
        }
        assert prices[..|prices|] == prices;
        subtotal := subtotal + (listing.priceCents + addOnsCents) * cart[i].quantity;
        assert items[..i + 1][..i] == items[..i];
      }
      assert items[..|items|] == items;
      totals := PriceOrder(subtotal, isPremium, choice.Delivery?, db.tariff);
    }

    /** The item rows of `insertOrder`: the live prices of this moment. */
    method SnapshotItems(cart: seq<CartLine>, choice: Fulfillment) returns (items: seq<OrderItem>)
      requires ValidCart(db.listings, cart, choice)
      ensures items == Snapshots(db.listings, cart, choice)
    {
      items := [];
      for i := 0 to |cart|
        invariant items == Snapshots(db.listings, cart, choice)[..i]
      {
        var listing := db.listings[cart[i].listing];
        var addOns: seq<int> := [];
        for j := 0 to |cart[i].addOns|
          invariant addOns == AddOnPrices(listing.addOns, cart[i].addOns)[..j]
        {
          addOns := addOns + [listing.addOns[cart[i].addOns[j]]];
        }
        assert addOns == AddOnPrices(listing.addOns, cart[i].addOns);
        items := items + [OrderItem(cart[i].listing, cart[i].quantity, listing.priceCents, addOns)];
      }
    }

    /** `UPDATE ... WHERE portionsLeft >= quantity`: a row matches only when it has that many. */
    method DecrementOne(l: ListingId, quantity: nat) returns (updated: bool)
      modifies db`listings
      ensures updated <==> Stocks(old(db.listings), l, quantity)
      ensures db.listings == if updated then old(db.listings)[l := WithPortions(old(db.listings)[l], 0 - quantity)]
                             else old(db.listings)
    {
      if l !in db.listings || db.listings[l].portionsLeft.None? { return false; }
      var left := db.listings[l].portionsLeft.value;
      if left < quantity { return false; }
      db.listings := db.listings[l := db.listings[l].(portionsLeft := Some(left - quantity))];
      updated := true;
    }

    /** One guarded UPDATE per listing of the cart; the first that matches no row rolls all of them back. */
    method AtomicDecrementInventory(items: seq<OrderItem>) returns (ok: bool)
      modifies db`listings
      ensures ok <==> CanTake(old(db.listings), items)
      ensures db.listings == if ok then Taken(old(db.listings), items) else old(db.listings)
    {
      var wantedByListing := AggregateByListing(items);
      var before := db.listings;
      var todo := wantedByListing.Keys;
      ghost var done: set<ListingId> := {};
      while todo != {}
        invariant done + todo == wantedByListing.Keys && done !! todo
        invariant PartlyTaken(before, db.listings, items, done)
        decreases todo
      {
        var l :| l in todo;
        TakeOne(before, db.listings, items, done, l);
        var updated := DecrementOne(l, wantedByListing[l]);
        if !updated {
          ShortOfStock(before, items, l);
          db.listings := before;
          return false;
        }
        todo, done := todo - {l}, done + {l};
      }
      AllTaken(before, db.listings, items, done);
      ok := true;
    }

    method CreateOrder(p: Placement) returns (outcome: Outcome)
      requires db.Valid()
      modifies db
      ensures db.Answers(PlaceOrder(p), outcome)
    {
      StepKeepsConsistent(db.Snapshot(), PlaceOrder(p));
      if p.gate.Some? { return Outcome.Failed(p.gate.value); }
      var valid := LoadAndValidateCart(p.cart, p.choice);
      if !valid { return Outcome.Failed(BadRequest); }
      var seller := db.listings[p.cart[0].listing].seller;
      var totals := ComputeTotals(p.cart, p.isPremium, p.choice);
      var items := SnapshotItems(p.cart, p.choice);
      var taken := AtomicDecrementInventory(items);
      if !taken { return Outcome.Failed(Conflict); }
      PlacingIsAppend(old(db.Snapshot()), p);
      var o := |db.orders|;
      var order := NewOrder(p.(intent := NoIntent), seller, items, totals);
      db.orders := db.orders + [order];
      if p.intent.NoIntent? { return Outcome.Failed(Unavailable); }
      if p.intent.Recorded? { db.orders := db.orders[o := order.(paymentIntent := Some(p.intent.id))]; }
      outcome := Done;
    }

    // ---- No driver ----

    /** Order and stock, the delivery row if asked, then the refund. */
    method CancelWithRefund(o: OrderId, cancelDelivery: bool, stripe: StripeReply)
      requires o < |db.orders|
      modifies db
      ensures var d := LatestDelivery(old(db.deliveries), o);
        var l := LocalAt(old(db.Snapshot()), o, d);
        db.Snapshot() == Apply(old(db.Snapshot()), o, d,
                               Effect(RefundIfNeeded(CancelAndRestock(l.order), stripe),
                                      if cancelDelivery then CancelDelivery(l.delivery) else l.delivery, false, []))
    {
      CancelIsApplied(db.Snapshot(), o, cancelDelivery, stripe);
      WriteCancel(o, cancelDelivery, stripe);
    }

    /** Order and stock, then the delivery, then the refund. */
    method WriteCancel(o: OrderId, cancelDelivery: bool, stripe: StripeReply)
      requires o < |db.orders|
      modifies db`orders, db`listings, db`deliveries, db`entries, db`refundLog
      ensures var t := AfterCancel(old(db.Snapshot()), o, cancelDelivery, stripe);
        && db.orders == t.orders && db.listings == t.listings && db.deliveries == t.deliveries
        && db.entries == t.entries && db.refundLog == t.refundLog
    {
      CancelAndRestore(o);
      var d := LatestDelivery(db.deliveries, o);
      if cancelDelivery && d.Some? {
        db.deliveries := db.deliveries[d.value := db.deliveries[d.value].(status := DeliveryStatus.Cancelled)];
      }
      RefundOrderIfNeeded(o, stripe);
    }

    method SwitchOrderToPickup(o: OrderId)
      requires o < |db.orders|
      modifies db`orders, db`deliveries
      ensures var switched := old(db.orders)[o].(status := OrderStatus.Ready, choice := Fulfillment.Pickup);
        db.orders == old(db.orders)[o := switched]
      ensures var d := LatestDelivery(old(db.deliveries), o);
        db.deliveries == if d.None? then old(db.deliveries)
          else old(db.deliveries)[d.value := old(db.deliveries)[d.value].(status := DeliveryStatus.Cancelled)]
    {
      db.orders := db.orders[o := db.orders[o].(status := OrderStatus.Ready, choice := Fulfillment.Pickup)];
      var d := LatestDelivery(db.deliveries, o);
      if d.Some? {
        db.deliveries := db.deliveries[d.value := db.deliveries[d.value].(status := DeliveryStatus.Cancelled)];
      }
    }

    method DecideNoDriver(o: OrderId, caller: User, switchToPickup: bool, stripe: StripeReply)
      returns (outcome: Outcome)
      requires db.Valid()
      modifies db
      ensures db.Answers(OnOrder(o, Event.DecideNoDriver(caller, switchToPickup, stripe)), outcome)
    {
      StepKeepsConsistent(db.Snapshot(), OnOrder(o, Event.DecideNoDriver(caller, switchToPickup, stripe)));
      if o >= |db.orders| { return Outcome.Failed(NotFound); }
      if db.orders[o].terms.buyer != caller { return Outcome.Failed(Forbidden); }
      if !db.orders[o].status.NoDriverAvailable? { return Outcome.Failed(Conflict); }
      if switchToPickup { SwitchOrderToPickup(o); } else { CancelWithRefund(o, true, stripe); }
      outcome := Done;
    }

    method AutoCancelNoResponse(o: OrderId, stripe: StripeReply) returns (outcome: Outcome)
      requires db.Valid()
      modifies db
      ensures db.Answers(OnOrder(o, Event.AutoCancelNoResponse(stripe)), outcome)
    {
      StepKeepsConsistent(db.Snapshot(), OnOrder(o, Event.AutoCancelNoResponse(stripe)));
      if o >= |db.orders| || !db.orders[o].status.NoDriverAvailable? { return Skipped; }
      CancelWithRefund(o, true, stripe);
      outcome := Done;
    }

    // ---- Cancellations ----

    method CheckCannotProvide(order: Order, delivery: Option<DeliveryRow>, caller: User) returns (error: Option<Error>)
      ensures error == CannotProvideError(Local(order, delivery), caller)
    {
      if order.terms.seller != caller { return Some(Forbidden); }
      var pickedUp := delivery.Some? && delivery.value.pickupConfirmedAt.Some?;
      if pickedUp || order.status.InDelivery? || order.status.PickedUp? { return Some(Conflict); }
      if AlreadyResolved(order.status) { return Some(Conflict); }
      if !SellerCancellable(order.status) { return Some(BadRequest); }
      error := None;
    }

    method SellerCannotProvide(o: OrderId, caller: User, stripe: StripeReply, struck: bool)
      returns (outcome: Outcome)
      requires db.Valid()
      modifies db, strikes
      ensures db.Answers(OnOrder(o, CannotProvide(caller, stripe)), outcome)
      ensures strikes.Snapshot() == Punished(old(strikes.Snapshot()),
        Penalty(old(db.Snapshot()), OnOrder(o, CannotProvide(caller, stripe)), outcome), struck)
    {
      StepKeepsConsistent(db.Snapshot(), OnOrder(o, CannotProvide(caller, stripe)));
      if o >= |db.orders| { return Outcome.Failed(NotFound); }
      CannotProvideIsHandled(db.Snapshot(), o, caller, stripe);
      var order := db.orders[o];
      var d := LatestDelivery(db.deliveries, o);
      var delivery := if d.Some? then Some(db.deliveries[d.value]) else None;
      var error := CheckCannotProvide(order, delivery, caller);
      if error.Some? { return Outcome.Failed(error.value); }
      CancelWithRefund(o, Unfinished(delivery), stripe);
      if struck { StrikeSeller(o, order.terms.seller, 1, "SELLER_CANNOT_PROVIDE"); }
      outcome := Done;
    }

    /** A strike for an order, on its seller. */
    method StrikeSeller(o: OrderId, seller: User, points: int, reason: string)
      modifies strikes
      ensures strikes.Snapshot()
           == S.Step(old(strikes.Snapshot()), S.Add(S.Incident(seller, S.Seller, points, reason, None, Some(o), None)))
    {
      var _, _ := strikes.AddStrike(S.Incident(seller, S.Seller, points, reason, None, Some(o), None));
    }

    /** The check of `cancelAsSeller`, before its transaction. */
    method BeginCancelAsSeller(o: OrderId, caller: User) returns (outcome: Outcome)
      requires db.Valid()
      modifies db
      ensures db.Answers(BeginCancel(o, caller), outcome)
    {
      StepKeepsConsistent(db.Snapshot(), BeginCancel(o, caller));
      if o >= |db.orders| { return Outcome.Failed(NotFound); }
      if db.orders[o].terms.seller != caller { return Outcome.Failed(Forbidden); }
      if !SellerCancellable(db.orders[o].status) { return Outcome.Failed(Conflict); }
      db.cancelsInFlight := db.cancelsInFlight + multiset{o};
      outcome := Done;
    }

    /** Its transaction, which re-reads the order and does nothing when it lost a race, and the refund after it. */
    method CommitCancelAsSeller(o: OrderId, stripe: StripeReply) returns (outcome: Outcome)
      requires db.Valid() && o in db.cancelsInFlight
      modifies db
      ensures db.Answers(CommitCancel(o, stripe), outcome)
    {
      StepKeepsConsistent(db.Snapshot(), CommitCancel(o, stripe));
      CommitIsHandled(db.Snapshot(), o, stripe);
      WriteCommit(o, stripe);
      outcome := Done;
    }

    method WriteCommit(o: OrderId, stripe: StripeReply)
      requires o < |db.orders|
      modifies db`cancelsInFlight, db`orders, db`listings, db`entries, db`refundLog
      ensures var before := old(db.orders)[o];
        var order := RefundIfNeeded(if SellerCancellable(before.status) then CancelAndRestock(before) else before,
                                    stripe);
        && db.cancelsInFlight == old(db.cancelsInFlight) - multiset{o}
        && db.orders == old(db.orders)[o := order]
        && db.listings == (if RestocksNow(before, order) then Restocked(old(db.listings), before.terms.items)
                           else old(db.listings))
        && db.entries == (if RefundsNow(before, order) then Update(Reverse(o, false), old(db.entries))
                          else old(db.entries))
        && db.refundLog == if RefundsNow(before, order) then old(db.refundLog) + [o] else old(db.refundLog)
    {
      db.cancelsInFlight := db.cancelsInFlight - multiset{o};
      if SellerCancellable(db.orders[o].status) { CancelAndRestore(o); }
      RefundOrderIfNeeded(o, stripe);
    }

    /** Called by the driver's report, after the delivery row was cancelled. */
    method CancelForSellerUnavailable(o: OrderId, driver: User, stripe: StripeReply, struck: bool)
      returns (outcome: Outcome)
      requires o < |db.orders| && wallet.db == db
      modifies db`orders, db`listings, db`entries, db`refundLog, strikes
      ensures AlreadyResolved(old(db.orders)[o].status) ==> outcome == Outcome.Failed(Conflict)
      ensures !AlreadyResolved(old(db.orders)[o].status) ==> outcome.Done?
      ensures outcome.Failed? ==>
        db.orders == old(db.orders) && db.listings == old(db.listings) && db.refundLog == old(db.refundLog)
        && db.entries == old(db.entries)
      ensures outcome.Done? ==>
        var order, order' := old(db.orders)[o], RefundIfNeeded(CancelAndRestock(old(db.orders)[o]), stripe);
        && db.orders == old(db.orders)[o := order']
        && db.listings == (if RestocksNow(order, order') then Restocked(old(db.listings), order.terms.items)
                           else old(db.listings))
        && db.refundLog == (if RefundsNow(order, order') then old(db.refundLog) + [o] else old(db.refundLog))
        && db.entries == InsertAll(Reversed(old(db.entries), o, RefundsNow(order, order'), false),
                                   CompensationRows(o, driver, order.terms.fulfillmentFeeCents, db.now))
      ensures strikes.Snapshot() == Punished(old(strikes.Snapshot()),
        Some(S.Add(S.Incident(old(db.orders)[o].terms.seller, S.Seller, 1, "SELLER_UNAVAILABLE", None, Some(o), None))),
        outcome.Done? && struck)
    {
      var order := db.orders[o];
      if AlreadyResolved(order.status) { return Outcome.Failed(Conflict); }
      CancelAndRestore(o);
      RefundOrderIfNeeded(o, stripe);
      if order.terms.fulfillmentFeeCents > 0 { wallet.CompensateDriver(o, driver, order.terms.fulfillmentFeeCents); }
      if struck { StrikeSeller(o, order.terms.seller, 1, "SELLER_UNAVAILABLE"); }
      outcome := Done;
    }

    // ---- Driver disappeared ----

    method HandleDriverDeliveryTimeout(d: DeliveryId, stripe: StripeReply, struck: bool)
      returns (outcome: Outcome)
      requires db.Valid() && wallet.db == db
      modifies db, strikes
      ensures db.Answers(OnDelivery(d, DriverTimeout(stripe)), outcome)
      ensures strikes.Snapshot() == Punished(old(strikes.Snapshot()),
        Penalty(old(db.Snapshot()), OnDelivery(d, DriverTimeout(stripe)), outcome), struck)
    {
      StepKeepsConsistent(db.Snapshot(), OnDelivery(d, DriverTimeout(stripe)));
      if d >= |db.deliveries| { return Skipped; }
      TimeoutIsHandled(db.Snapshot(), d, stripe);
      var overdue := IsOverdue(db.orders[db.deliveries[d].order], db.deliveries[d]);
      if !overdue { return Skipped; }
      ResolveDriverDisappeared(d, stripe, struck);
      outcome := Done;
    }

    /** The watchdog's guards. */
    method IsOverdue(order: Order, delivery: DeliveryRow) returns (overdue: bool)
      ensures overdue <==> TimeoutDue(order, delivery)
    {
      if delivery.status.Delivered? || delivery.deliveredConfirmedAt.Some? { return false; }
      if delivery.deliveredAsAbsent { return false; }
      if delivery.status.Failed? || delivery.status.Cancelled? { return false; }
      if delivery.pickupConfirmedAt.None? { return false; }
      if !order.status.InDelivery? { return false; }
      overdue := true;
    }

    method ResolveDriverDisappeared(d: DeliveryId, stripe: StripeReply, struck: bool)
      requires d < |db.deliveries| && db.deliveries[d].order < |db.orders| && wallet.db == db
      modifies db`orders, db`deliveries, db`entries, db`refundLog, strikes
      ensures db.Snapshot() == AfterDisappearance(old(db.Snapshot()), d, stripe)
      ensures var row := old(db.deliveries)[d];
        strikes.Snapshot() == Punished(old(strikes.Snapshot()),
          if row.driver.Some?
          then Some(S.Exclude(row.driver.value, S.Driver, "DRIVER_DISAPPEARED_AFTER_PICKUP", Some(row.order), Some(d)))
          else None, struck)
    {
      var delivery := db.deliveries[d];
      FailDelivery(d, stripe);
      if delivery.driver.Some? && struck {
        strikes.ImmediateExclude(delivery.driver.value, S.Driver, "DRIVER_DISAPPEARED_AFTER_PICKUP",
                                 Some(delivery.order),
                                 Some(d));
      }
    }

    /** Its writes on orders, deliveries and the wallet. */
    method FailDelivery(d: DeliveryId, stripe: StripeReply)
      requires d < |db.deliveries| && db.deliveries[d].order < |db.orders| && wallet.db == db
      modifies db`orders, db`deliveries, db`entries, db`refundLog
      ensures db.Snapshot() == AfterDisappearance(old(db.Snapshot()), d, stripe)
    {
      var delivery := db.deliveries[d];
      var o := delivery.order;
      var order := db.orders[o];
      db.deliveries := db.deliveries[d := delivery.(status := DeliveryStatus.Failed)];
      db.orders := db.orders[o := order.(status := OrderStatus.Cancelled)];
      db.entries := Update(Reverse(o, true), db.entries);
      RefundOrderIfNeeded(o, stripe);
      SettleDisappearance(o, order, delivery.driver);
    }

    /** The seller is paid and the driver charged, one insert each. */
    method SettleDisappearance(o: OrderId, order: Order, driver: Option<User>)
      requires wallet.db == db
      modifies db`entries
      ensures db.entries == InsertAll(old(db.entries), DisappearanceRows(o, order, driver, db.now))
    {
      InsertAllTwice(db.entries, order, o, driver, db.now);
      if order.terms.sellerEarningsCents > 0 {
        wallet.CreditSellerEarning(o, order.terms.seller, order.terms.sellerEarningsCents);
      }
      if driver.Some? && order.terms.buyerTotalCents > 0 {
        wallet.RecordDriverDebt(o, driver.value, order.terms.buyerTotalCents);
      }
    }

    // ---- Completion ----

    method ConfirmPickup(o: OrderId, caller: User) returns (outcome: Outcome)
      requires db.Valid() && wallet.db == db
      modifies db
      ensures db.Answers(OnOrder(o, Event.ConfirmPickup(caller)), outcome)
    {
      StepKeepsConsistent(db.Snapshot(), OnOrder(o, Event.ConfirmPickup(caller)));
      if o >= |db.orders| { return Outcome.Failed(NotFound); }
      var order := db.orders[o];
      if order.terms.seller != caller && order.terms.buyer != caller { return Outcome.Failed(Forbidden); }
      if !order.choice.Pickup? { return Outcome.Failed(BadRequest); }
      if !order.status.Ready? { return Outcome.Failed(Conflict); }
      PickupIsHandled(db.Snapshot(), o, caller);
      HandOver(o);
      outcome := Done;
    }

    /** Marks the order DELIVERED and credits it. */
    method HandOver(o: OrderId)
      requires o < |db.orders| && wallet.db == db
      modifies db`orders, db`entries
      ensures db.Snapshot() == AfterPickup(old(db.Snapshot()), o)
    {
      db.orders := db.orders[o := db.orders[o].(status := OrderStatus.Delivered)];
      wallet.CreditForCompletedOrder(o);
    }

    /** Called by both driver confirmations, after the delivery row was written. */
    method ConfirmDeliveredByDriver(o: OrderId) returns (outcome: Outcome)
      requires o < |db.orders| && wallet.db == db
      modifies db`orders, db`entries
      ensures !old(db.orders)[o].choice.Delivery? ==>
        outcome == Outcome.Failed(BadRequest) && db.orders == old(db.orders) && db.entries == old(db.entries)
      ensures old(db.orders)[o].choice.Delivery? ==>
        && outcome.Done?
        && db.orders == old(db.orders)[o := old(db.orders)[o].(status := OrderStatus.Delivered)]
        && db.entries == InsertAll(old(db.entries), CompletionRows(o, db.orders[o], DeliveredRow(db.deliveries, o),
                                                                   db.now, db.releaseWindow))
    {
      var order := db.orders[o];
      if !order.choice.Delivery? { return Outcome.Failed(BadRequest); }
      if !order.status.Delivered? { db.orders := db.orders[o := order.(status := OrderStatus.Delivered)]; }
      wallet.CreditForCompletedOrder(o);
      outcome := Done;
    }

    // ---- Disputes ----

    method RefundForDispute(o: OrderId, stripe: StripeReply)
      requires o < |db.orders|
      modifies db
      ensures var d := LatestDelivery(old(db.deliveries), o);
        db.Snapshot() == Perform(old(db.Snapshot()), o, d, Event.RefundForDispute(stripe)).state
    {
      RefundOrderIfNeeded(o, stripe);
      db.orders := db.orders[o := db.orders[o].(status := OrderStatus.Refunded)];
    }

    /** The checks of `createDispute`, in order. */
    method CheckFiling(o: OrderId, caller: User, kind: DisputeKind, proof: bool, description: bool)
      returns (error: Option<Error>)
      requires o < |db.orders|
      ensures error == FilingError(db.Snapshot(), o, caller, kind, proof, description)
    {
      var order := db.orders[o];
      if order.terms.buyer != caller { return Some(Forbidden); }
      if order.status.Pending? { return Some(BadRequest); }
      var latest := LatestDelivery(db.deliveries, o);
      if Payable(order.status) && latest.Some? {
        var deliveredAt := db.deliveries[latest.value].deliveredAt;
        if deliveredAt.Some? && db.now - deliveredAt.value > CLAIM_WINDOW { return Some(BadRequest); }
      }
      if kind.FoodPoisoning? && !proof { return Some(BadRequest); }
      if kind.FalseAllergens? && !description { return Some(BadRequest); }
      if OpenDispute(db.disputes, o, kind) { return Some(Conflict); }
      if kind.Chargeback? { return Some(BadRequest); }
      error := None;
    }

    /** The decision table: refund at once, refuse, or leave it to an admin. */
    method DecideDispute(o: OrderId, kind: DisputeKind) returns (status: DisputeStatus, autoRefund: bool)
      requires o < |db.orders|
      ensures (status, autoRefund) == DisputeDecision(kind, LatestRow(db.Snapshot(), o))
    {
      status, autoRefund := AdminReview, false;
      match kind {
        case Subjective => status := Rejected;
        case NeverReceived =>
          var latest := LatestDelivery(db.deliveries, o);
          if latest.None? || (db.deliveries[latest.value].deliveredConfirmedAt.None?
                              && !db.deliveries[latest.value].deliveredAsAbsent) {
            status, autoRefund := AutoRefunded, true;
          }
        case WrongOrder => status, autoRefund := AutoRefunded, true;
        case _ =>
      }
    }

    /** The dispute row, and the refund when it is granted at once. */
    method RecordDispute(o: OrderId, kind: DisputeKind, stripe: StripeReply)
      requires o < |db.orders|
      modifies db
      ensures var s := old(db.Snapshot());
        db.Snapshot()
        == if DisputeDecision(kind, LatestRow(s, o)).1
           then Perform(Filed(s, o, kind), o, LatestDelivery(s.deliveries, o), Event.RefundForDispute(stripe)).state
           else Filed(s, o, kind)
    {
      var status, autoRefund := DecideDispute(o, kind);
      var granted := if autoRefund then Some(db.orders[o].terms.buyerTotalCents) else None;
      var refundRequested := !kind.Subjective? && !kind.FalseAllergens?;
      db.disputes := db.disputes + [Dispute(o, kind, status, refundRequested, granted, None)];
      if autoRefund { RefundForDispute(o, stripe); }
    }

    method CreateDispute(o: OrderId, caller: User, kind: DisputeKind, proof: bool, description: bool,
                         stripe: StripeReply, struck: bool) returns (outcome: Outcome)
      requires db.Valid()
      modifies db, strikes
      ensures db.Answers(FileDispute(o, caller, kind, proof, description, stripe), outcome)
      ensures strikes.Snapshot() == Punished(old(strikes.Snapshot()),
        Penalty(old(db.Snapshot()), FileDispute(o, caller, kind, proof, description, stripe), outcome), struck)
    {
      StepKeepsConsistent(db.Snapshot(), FileDispute(o, caller, kind, proof, description, stripe));
      if o >= |db.orders| { return Outcome.Failed(NotFound); }
      var seller := db.orders[o].terms.seller;
      var error := CheckFiling(o, caller, kind, proof, description);
      if error.Some? { return Outcome.Failed(error.value); }
      FilingIsHandled(db.Snapshot(), o, caller, kind, proof, description, stripe);
      RecordDispute(o, kind, stripe);
      if kind.WrongOrder? && struck { StrikeSeller(o, seller, 1, "WRONG_ORDER"); }
      outcome := Done;
    }

    method AdminApproveRefund(i: nat, stripe: StripeReply) returns (outcome: Outcome)
      requires db.Valid()
      modifies db
      ensures db.Answers(ApproveDispute(i, stripe), outcome)
    {
      StepKeepsConsistent(db.Snapshot(), ApproveDispute(i, stripe));
      if i >= |db.disputes| { return Outcome.Failed(NotFound); }
      var dispute := db.disputes[i];
      var total := db.orders[dispute.order].terms.buyerTotalCents;
      RefundForDispute(dispute.order, stripe);
      var granted := if dispute.refundCents.Some? then dispute.refundCents.value else total;
      db.disputes := db.disputes[i := dispute.(status := Resolved, refundCents := Some(granted))];
      outcome := Done;
    }

    /** `adminRejectDispute` and `adminResolveDispute` */
    method AdminCloseDispute(i: nat, reject: bool) returns (outcome: Outcome)
      requires db.Valid()
      modifies db
      ensures db.Answers(CloseDispute(i, reject), outcome)
    {
      StepKeepsConsistent(db.Snapshot(), CloseDispute(i, reject));
      if i >= |db.disputes| { return Outcome.Failed(NotFound); }
      db.disputes := db.disputes[i := db.disputes[i].(status := if reject then Rejected else Resolved)];
      outcome := Done;
    }

    /** A serious strike on the seller, then the dispute is resolved. */
    method AdminConfirmAllergenViolation(i: nat, struck: bool) returns (outcome: Outcome)
      requires db.Valid()
      modifies db, strikes
      ensures db.Answers(CloseDispute(i, false), outcome)
      ensures strikes.Snapshot() == Punished(old(strikes.Snapshot()),
        if i < |old(db.disputes)| then Some(AllergenStrike(old(db.Snapshot()), i)) else None, struck)
    {
      StepKeepsConsistent(db.Snapshot(), CloseDispute(i, false));
      if i >= |db.disputes| { return Outcome.Failed(NotFound); }
      var o := db.disputes[i].order;
      if struck {
        var _, _ := strikes.AddStrike(S.Incident(db.orders[o].terms.seller, S.Seller, 2, "ALLERGEN_FALSE_DECLARATION",
                                                 Some(i), Some(o), None));
      }
      db.disputes := db.disputes[i := db.disputes[i].(status := Resolved)];
      outcome := Done;
    }

    /** A serious strike on the buyer, then the dispute is resolved. */
    method AdminConfirmFraudulentChargeback(i: nat, struck: bool) returns (outcome: Outcome)
      requires db.Valid()
      modifies db, strikes
      ensures db.Answers(CloseDispute(i, false), outcome)
      ensures strikes.Snapshot() == Punished(old(strikes.Snapshot()),
        if i < |old(db.disputes)| then Some(FraudStrike(old(db.Snapshot()), i)) else None, struck)
    {
      StepKeepsConsistent(db.Snapshot(), CloseDispute(i, false));
      if i >= |db.disputes| { return Outcome.Failed(NotFound); }
      var dispute := db.disputes[i];
      var source := if dispute.stripe.Some? then dispute.stripe.value.id else i;
      if struck {
        var buyer := db.orders[dispute.order].terms.buyer;
        var _, _ := strikes.AddStrike(S.Incident(buyer, S.Buyer, 2, "FRAUDULENT_CHARGEBACK", Some(source),
                                                 Some(dispute.order), None));
      }
      db.disputes := db.disputes[i := dispute.(status := Resolved)];
      outcome := Done;
    }
  }

  /** The two inserts of a disappeared driver are one batch. */
  lemma InsertAllTwice(entries: seq<Entry>, order: Order, o: OrderId, driver: Option<User>, now: Time)
    ensures var seller := SellerPay(o, order.terms.seller, order.terms.sellerEarningsCents, now);
      var debt := if driver.None? then [] else DriverDebtRows(o, driver.value, order.terms.buyerTotalCents, now);
      InsertAll(InsertAll(entries, seller), debt) == InsertAll(entries, DisappearanceRows(o, order, driver, now))
  {
  }
}
