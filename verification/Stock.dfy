/** Stock conservation: what is on the shelf plus what orders hold is what the seller supplied. */
module Stock {
  import opened Domain
  import opened Inventory
  import opened Lifecycle
  import opened Marketplace
  import opened Consistency
  import opened Views
  import opened Runs
  import opened Finality

  predicate ListingConserved(s: State, l: ListingId)
    requires l in s.listings
  {
    s.listings[l].portionsLeft.Some? ==>
      l in s.supplied && s.listings[l].portionsLeft.value + HeldByOrders(s.orders, l) == s.supplied[l]
  }

  predicate Conserved(s: State) {
    forall l :: l in s.listings ==> ListingConserved(s, l)
  }

  lemma ApplyConserves(s: State, o: OrderId, d: Option<DeliveryId>, eff: Effect)
    requires Conserved(s) && o < |s.orders| && (d.Some? ==> d.value < |s.deliveries|)
    requires SameTerms(s.orders[o], eff.order)
    ensures Conserved(Apply(s, o, d, eff))
  {
    var s' := Apply(s, o, d, eff);
    forall l | l in s'.listings ensures ListingConserved(s', l) {
      assert ListingConserved(s, l);
      HeldAfterUpdate(s.orders, o, eff.order, l);
    }
  }

  lemma HandlerConserves(s: State, o: OrderId, d: Option<DeliveryId>, e: Event)
    requires Conserved(s) && o < |s.orders| && (d.Some? ==> d.value < |s.deliveries|)
    requires ForDelivery(e) ==> d.Some?
    requires e.MarkReady? ==> d.None?
    ensures Conserved(Perform(s, o, d, e).state)
  {
    var v := View(s.orders[o], LocalAt(s, o, d).delivery, [], 0);
    assert LocalOf(v, e) == LocalAt(s, o, d);
    TermsKept(e, v, o, s.now, s.releaseWindow);
    var eff := EffectOf(e, v, o, s.now, s.releaseWindow);
    if eff.Some? { ApplyConserves(s, o, d, eff.value); }
  }

  lemma SameStockConserves(s: State, s': State)
    requires Conserved(s) && SameStock(s, s')
    ensures Conserved(s')
  {
    forall l | l in s'.listings ensures ListingConserved(s', l) {
      assert ListingConserved(s, l);
    }
  }

  /** Placing takes the aggregated quantity of every listing, also for carts that repeat one. */
  lemma PlacingConserves(s: State, p: Placement)
    requires Conserved(s)
    ensures Conserved(Place(s, p).state)
  {
    var s' := Place(s, p).state;
    if p.gate.None? && ValidCart(s.listings, p.cart, p.choice) {
      var items := Snapshots(s.listings, p.cart, p.choice);
      if CanTake(s.listings, items) { TakingConserves(s, s', s'.orders[|s.orders|]); }
    }
  }

  lemma TakingConserves(s: State, s': State, order: Order)
    requires Conserved(s) && CanTake(s.listings, order.terms.items) && !order.inventoryRestored
    requires s' == s.(orders := s.orders + [order], listings := Taken(s.listings, order.terms.items))
    ensures Conserved(s')
  {
    forall l | l in s'.listings ensures ListingConserved(s', l) {
      assert ListingConserved(s, l);
      HeldAfterAppend(s.orders, order, l);
      if s.listings[l].portionsLeft.Some? { TakenIsStocked(s.listings, order.terms.items, l); }
    }
  }

  lemma TakenIsStocked(listings: Listings, items: seq<OrderItem>, l: ListingId)
    requires CanTake(listings, items) && l in listings && listings[l].portionsLeft.Some?
    ensures Quantity(items, l) <= listings[l].portionsLeft.value
  {
    if i :| 0 <= i < |items| && items[i].listing == l {
      assert Stocks(listings, items[i].listing, Quantity(items, l));
    } else {
      QuantityNeedsALine(items, l);
    }
  }

  lemma EditingConserves(s: State, l: ListingId, row: Listing)
    requires Conserved(s)
    ensures Conserved(Step(s, EditListing(l, row)))
  {
    var s' := Step(s, EditListing(l, row));
    forall k | k in s'.listings ensures ListingConserved(s', k) {
      if k in s.listings { assert ListingConserved(s, k); }
    }
  }

  lemma StepConserves(s: State, a: Action)
    requires Conserved(s)
    ensures Conserved(Step(s, a))
  {
    var c := CallOf(s, a);
    if c.Some? {
      SameStockConserves(s, c.value.before);
      HandlerConserves(c.value.before, c.value.order, c.value.delivery, c.value.event);
      StepRunsItsCall(s, a);
      SameStockConserves(AfterCall(c.value), Step(s, a));
    } else {
      match a
      case PlaceOrder(p) => PlacingConserves(s, p);
      case EditListing(l, row) => EditingConserves(s, l, row);
      case _ =>
        StepWithoutCall(s, a);
        SameStockConserves(s, Step(s, a));
    }
  }

  /** In every run: for each tracked listing, the portions left plus the portions held by orders whose stock has not
      gone back equal what its seller supplied (and portions left are never negative, by their type). */
  lemma {:induction false} StockIsConserved(s: State, actions: seq<Action>)
    requires Conserved(s)
    ensures Conserved(Run(s, actions))
  {
    if actions == [] {
    } else {
      var n := |actions| - 1;
      StockIsConserved(s, actions[..n]);
      StepConserves(Run(s, actions[..n]), actions[n]);
    }
  }

  /** The same, for reachable states. */
  lemma ReachableStockIsConserved(s: State, l: ListingId)
    requires Reachable(s) && l in s.listings && s.listings[l].portionsLeft.Some?
    ensures l in s.supplied && s.listings[l].portionsLeft.value + HeldByOrders(s.orders, l) == s.supplied[l]
  {
    var tariff, window, start, actions :| s == Run(InitialState(tariff, window, start), actions);
    StockIsConserved(InitialState(tariff, window, start), actions);
    assert ListingConserved(s, l);
  }

  // ---- Each order's stock goes back at most once ----

  /** What the shelf holds of a listing; untracked listings hold no count. */
  function Shelf(s: State, l: ListingId): nat {
    if l in s.listings && s.listings[l].portionsLeft.Some? then s.listings[l].portionsLeft.value else 0
  }

  predicate Tracked(s: State, l: ListingId) {
    l in s.listings && s.listings[l].portionsLeft.Some?
  }

  /** What a step puts on the shelf of `l` by running a handler on order `o`. */
  function PutBack(s: State, a: Action, o: OrderId, l: ListingId): int {
    var c := CallOf(s, a);
    if c.Some? && c.value.order == o then Shelf(Step(s, a), l) - Shelf(s, l) else 0
  }

  lemma CallOnShelf(s: State, a: Action, l: ListingId)
    requires CallOf(s, a).Some?
    ensures var o := CallOf(s, a).value.order;
      && |Step(s, a).orders| == |s.orders|
      && PutBack(s, a, o, l)
         == if RestocksNow(s.orders[o], Step(s, a).orders[o]) && Tracked(s, l)
            then Quantity(s.orders[o].terms.items, l) else 0
  {
    var c := CallOf(s, a).value;
    StepRunsItsCall(s, a);
    HandlerOnShelf(c.before, c.order, c.delivery, c.event, l);
  }

  lemma HandlerOnShelf(s: State, o: OrderId, d: Option<DeliveryId>, e: Event, l: ListingId)
    requires o < |s.orders| && (d.Some? ==> d.value < |s.deliveries|) && (ForDelivery(e) ==> d.Some?)
    ensures var s' := Perform(s, o, d, e).state;
      && |s'.orders| == |s.orders|
      && Shelf(s', l) - Shelf(s, l)
         == if RestocksNow(s.orders[o], s'.orders[o]) && Tracked(s, l) then Quantity(s.orders[o].terms.items, l) else 0
  {
  }

  /** Apart from a seller's edit, portions only come back to a shelf when a step returns the stock of one order, and
      then exactly what that order took of the listing. */
  lemma OnlyReturnsFillShelves(s: State, a: Action, l: ListingId)
    requires !a.EditListing?
    ensures Shelf(Step(s, a), l) > Shelf(s, l) ==>
      && CallOf(s, a).Some?
      && var o := CallOf(s, a).value.order;
         && |Step(s, a).orders| == |s.orders|
         && RestocksNow(s.orders[o], Step(s, a).orders[o])
         && Shelf(Step(s, a), l) == Shelf(s, l) + Quantity(s.orders[o].terms.items, l)
  {
    if CallOf(s, a).Some? {
      CallOnShelf(s, a, l);
    } else {
      StepWithoutCall(s, a);
      if a.PlaceOrder? { PlacingEmptiesShelves(s, a.placement, l); }
    }
  }

  lemma PlacingEmptiesShelves(s: State, p: Placement, l: ListingId)
    ensures Shelf(Place(s, p).state, l) <= Shelf(s, l)
  {
  }

  function PutBackInRun(s: State, actions: seq<Action>, o: OrderId, l: ListingId): int {
    if actions == [] then 0
    else
      var n := |actions| - 1;
      PutBackInRun(s, actions[..n], o, l) + PutBack(Run(s, actions[..n]), actions[n], o, l)
  }

  predicate WentBack(s: State, o: OrderId) {
    o < |s.orders| && s.orders[o].inventoryRestored
  }

  lemma PutBackOnce(s: State, a: Action, o: OrderId, l: ListingId)
    requires Consistent(s)
    ensures PutBack(s, a, o, l) >= 0
    ensures WentBack(s, o) ==> WentBack(Step(s, a), o)
    ensures PutBack(s, a, o, l) > 0 ==> !WentBack(s, o) && WentBack(Step(s, a), o)
    ensures o < |s.orders| ==>
      && o < |Step(s, a).orders| && Step(s, a).orders[o].terms == s.orders[o].terms
      && PutBack(s, a, o, l) <= Quantity(s.orders[o].terms.items, l)
    ensures o >= |s.orders| ==> PutBack(s, a, o, l) == 0
  {
    if o < |s.orders| { TermsStay(s, a, o); }
    if CallOf(s, a).Some? { CallOnShelf(s, a, l); }
  }

  /** Over any run and all restoring paths, what comes back to a shelf on behalf of an order is at most what the order
      took of that listing, and nothing when its stock had gone back before. */
  lemma {:induction false} StockReturnsAtMostOnce(s: State, actions: seq<Action>, o: OrderId, l: ListingId)
    requires Consistent(s)
    ensures var s' := Run(s, actions);
      && 0 <= PutBackInRun(s, actions, o, l)
      && (WentBack(s, o) ==> WentBack(s', o))
      && (PutBackInRun(s, actions, o, l) > 0 ==> !WentBack(s, o) && WentBack(s', o))
      && (o < |s'.orders| ==> PutBackInRun(s, actions, o, l) <= Quantity(s'.orders[o].terms.items, l))
      && (o >= |s'.orders| ==> PutBackInRun(s, actions, o, l) == 0)
  {
    if actions == [] {
    } else {
      var n := |actions| - 1;
      StockReturnsAtMostOnce(s, actions[..n], o, l);
      EveryRunIsConsistent(s, actions[..n]);
      PutBackOnce(Run(s, actions[..n]), actions[n], o, l);
    }
  }
}
