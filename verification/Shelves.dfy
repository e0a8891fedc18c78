/** What a cart takes off the shelves, portion by portion, and that the same comes back when its order is taken back. */
module Shelves {
  import opened Domain
  import opened Inventory
  import opened Marketplace
  import opened Consistency
  import opened Views
  import opened Runs
  import opened Stock
  import opened Charges

  lemma QuantityOfMore(items: seq<OrderItem>, item: OrderItem, l: ListingId)
    ensures Quantity(items + [item], l) == Quantity(items, l) + if item.listing == l then item.quantity else 0
  {
    assert (items + [item])[..|items|] == items;
  }

  // ---- What a cart takes ----

  /** Everything but stock that a line must meet: the dish is on offer, in this way, with these add-ons. */
  predicate OnOffer(s: State, line: CartLine, choice: Fulfillment) {
    && line.listing in s.listings && s.listings[line.listing].orderable
    && (choice.Delivery? ==> !s.listings[line.listing].fulfillment.OnlyPickup?)
    && (choice.Pickup? ==> !s.listings[line.listing].fulfillment.OnlyDelivery?)
    && forall k :: 0 <= k < |line.addOns| ==> line.addOns[k] in s.listings[line.listing].addOns
  }

  /** At least `q` portions are left; a dish without a count has none to take. */
  predicate Left(listings: Listings, l: ListingId, q: nat) {
    l in listings && listings[l].portionsLeft.Some? && q <= listings[l].portionsLeft.value
  }

  /** The same listings, except that `q` portions of `l` are gone. */
  predicate TakenOff(before: Listings, after: Listings, l: ListingId, q: nat) {
    && after.Keys == before.Keys
    && (forall k :: k in before && k != l ==> after[k] == before[k])
    && l in before && before[l].portionsLeft.Some? && after[l].portionsLeft.Some?
    && after[l].portionsLeft.value == before[l].portionsLeft.value - q
    && after[l] == before[l].(portionsLeft := after[l].portionsLeft)
  }

  lemma PlacedListings(s: State, p: Placement)
    ensures Creates(s, p) <==>
      && p.gate.None? && ValidCart(s.listings, p.cart, p.choice)
      && CanTake(s.listings, Snapshots(s.listings, p.cart, p.choice))
    ensures Creates(s, p) ==>
      Step(s, PlaceOrder(p)).listings == Taken(s.listings, Snapshots(s.listings, p.cart, p.choice))
  {
  }

  lemma NothingTaken(listings: Listings)
    ensures CanTake(listings, []) && Taken(listings, []) == listings
  {
    forall l | l in listings ensures Taken(listings, [])[l] == listings[l] {
      assert Quantity([], l) == 0;
    }
  }

  lemma OneLineIsValid(s: State, p: Placement, line: CartLine)
    requires p.cart == [line]
    ensures ValidCart(s.listings, p.cart, p.choice) <==> OnOffer(s, line, p.choice)
    ensures OnOffer(s, line, p.choice) ==>
      var items := Snapshots(s.listings, p.cart, p.choice);
      items == [] + [items[0]] && items[0].quantity == line.quantity
  {
  }

  /** A cart of one line is accepted exactly when the dish is on offer and enough portions are left, and takes exactly
      that many. */
  lemma OneLineTakes(s: State, p: Placement, line: CartLine)
    requires p.cart == [line]
    ensures Creates(s, p) <==>
      p.gate.None? && OnOffer(s, line, p.choice) && Left(s.listings, line.listing, line.quantity)
    ensures Creates(s, p) ==> TakenOff(s.listings, Step(s, PlaceOrder(p)).listings, line.listing, line.quantity)
  {
    PlacedListings(s, p);
    OneLineIsValid(s, p, line);
    if OnOffer(s, line, p.choice) {
      NothingTaken(s.listings);
      MoreTakes(s.listings, [], Snapshots(s.listings, p.cart, p.choice)[0]);
    }
  }

  function More(p: Placement, line: CartLine): Placement {
    p.(cart := p.cart + [line])
  }

  lemma MoreIsValid(s: State, p: Placement, line: CartLine)
    requires ValidCart(s.listings, p.cart, p.choice)
    ensures ValidCart(s.listings, More(p, line).cart, p.choice) <==>
      OnOffer(s, line, p.choice) && s.listings[line.listing].seller == s.listings[p.cart[0].listing].seller
    ensures ValidCart(s.listings, More(p, line).cart, p.choice) ==>
      var items, items' := Snapshots(s.listings, p.cart, p.choice), Snapshots(s.listings, More(p, line).cart, p.choice);
      items' == items + [items'[|items|]] && items'[|items|].quantity == line.quantity
  {
    var cart := More(p, line).cart;
    assert cart[|p.cart|] == line && forall i :: 0 <= i < |p.cart| ==> cart[i] == p.cart[i];
    if ValidCart(s.listings, cart, p.choice) {
      var items, items' := Snapshots(s.listings, p.cart, p.choice), Snapshots(s.listings, cart, p.choice);
      assert items' == items + [items'[|items|]];
    }
  }

  /** A cart grows line by line: with one more line it is accepted exactly when the dish is on offer by the same seller
      and the portions the cart left of it are enough, and then takes that many more, and nothing more of the others. */
  lemma AnotherLineTakes(s: State, p: Placement, line: CartLine)
    requires Creates(s, p)
    ensures p.cart != [] && p.cart[0].listing in s.listings
    ensures var taken := Step(s, PlaceOrder(p)).listings;
      && (Creates(s, More(p, line)) <==>
            && OnOffer(s, line, p.choice) && s.listings[line.listing].seller == s.listings[p.cart[0].listing].seller
            && Left(taken, line.listing, line.quantity))
      && (Creates(s, More(p, line)) ==>
            TakenOff(taken, Step(s, PlaceOrder(More(p, line))).listings, line.listing, line.quantity))
  {
    PlacedListings(s, p);
    PlacedListings(s, More(p, line));
    MoreIsValid(s, p, line);
    if ValidCart(s.listings, More(p, line).cart, p.choice) {
      var items := Snapshots(s.listings, p.cart, p.choice);
      var items' := Snapshots(s.listings, More(p, line).cart, p.choice);
      MoreTakes(s.listings, items, items'[|items|]);
    }
  }

  /** A cart that is accepted is accepted without its last line too, so these two results decide every cart. */
  lemma FewerAreAccepted(s: State, p: Placement, line: CartLine)
    requires p.cart != [] && Creates(s, More(p, line))
    ensures Creates(s, p)
  {
    PlacedListings(s, p);
    PlacedListings(s, More(p, line));
    var cart := More(p, line).cart;
    assert forall i :: 0 <= i < |p.cart| ==> cart[i] == p.cart[i];
    MoreIsValid(s, p, line);
    var items, items' := Snapshots(s.listings, p.cart, p.choice), Snapshots(s.listings, cart, p.choice);
    forall i | 0 <= i < |items| ensures Stocks(s.listings, items[i].listing, Quantity(items, items[i].listing)) {
      assert items'[i] == items[i] && Stocks(s.listings, items'[i].listing, Quantity(items', items'[i].listing));
      QuantityOfMore(items, items'[|items|], items[i].listing);
    }
  }

  lemma MoreTakes(listings: Listings, items: seq<OrderItem>, item: OrderItem)
    requires CanTake(listings, items) && item.listing in listings
    ensures var left := Taken(listings, items);
      && (CanTake(listings, items + [item]) <==> Left(left, item.listing, item.quantity))
      && (CanTake(listings, items + [item]) ==>
            TakenOff(left, Taken(listings, items + [item]), item.listing, item.quantity))
  {
    var left, more := Taken(listings, items), items + [item];
    assert more[|items|] == item;
    QuantityOfMore(items, item, item.listing);
    if listings[item.listing].portionsLeft.Some? { TakenIsStocked(listings, items, item.listing); }
    if Left(left, item.listing, item.quantity) {
      forall i | 0 <= i < |more| ensures Stocks(listings, more[i].listing, Quantity(more, more[i].listing)) {
        MoreStocks(listings, items, item, i);
      }
    }
    if CanTake(listings, more) {
      assert Stocks(listings, more[|items|].listing, Quantity(more, item.listing));
      forall l | l in listings && l != item.listing ensures Taken(listings, more)[l] == left[l] {
        QuantityOfMore(items, item, l);
      }
    }
  }

  lemma MoreStocks(listings: Listings, items: seq<OrderItem>, item: OrderItem, i: nat)
    requires CanTake(listings, items) && i <= |items|
    requires Stocks(listings, item.listing, Quantity(items, item.listing) + item.quantity)
    ensures var more := items + [item]; Stocks(listings, more[i].listing, Quantity(more, more[i].listing))
  {
    var more := items + [item];
    QuantityOfMore(items, item, more[i].listing);
    if i < |items| {
      assert more[i] == items[i] && Stocks(listings, items[i].listing, Quantity(items, items[i].listing));
    }
  }

  /** Sellers write their own listing and nothing else; the clock moves nothing but itself. */
  lemma EditsAreExact(s: State, l: ListingId, row: Listing, elapsed: nat)
    ensures Step(s, EditListing(l, row))
         == s.(listings := s.listings[l := row], supplied := Step(s, EditListing(l, row)).supplied)
    ensures Step(s, Tick(elapsed)) == s.(now := s.now + elapsed)
  {
  }

  // ---- What comes back ----

  lemma {:induction false} TermsStayInRuns(s: State, actions: seq<Action>, o: OrderId)
    requires Consistent(s) && o < |s.orders|
    ensures o < |Run(s, actions).orders| && Run(s, actions).orders[o].terms == s.orders[o].terms
  {
    if actions == [] {
    } else {
      var n := |actions| - 1;
      TermsStayInRuns(s, actions[..n], o);
      EveryRunIsConsistent(s, actions[..n]);
      TermsStay(Run(s, actions[..n]), actions[n], o);
    }
  }

  lemma CreatedTook(s: State, p: Placement, l: ListingId)
    requires Creates(s, p) && Tracked(s, l)
    ensures Shelf(s, l) - Shelf(Step(s, PlaceOrder(p)), l) == Quantity(Created(s, p).terms.items, l)
  {
    CreatedFromCart(s, p);
    PlacedListings(s, p);
    TakenIsStocked(s.listings, Snapshots(s.listings, p.cart, p.choice), l);
  }

  lemma ReturnIsHandled(s: State, a: Action, o: OrderId, l: ListingId)
    requires Consistent(s) && o < |s.orders|
    ensures o < |Step(s, a).orders|
    ensures RestocksNow(s.orders[o], Step(s, a).orders[o]) && Tracked(s, l) ==>
      Shelf(Step(s, a), l) - Shelf(s, l) == Quantity(s.orders[o].terms.items, l)
  {
    StepIsLocal(s, a);
    var c := CauseOf(s, a, o);
    assert ViewOf(Step(s, a), o) == NextView(ViewOf(s, o), o, c, s.now, s.releaseWindow);
    if c.Handled? { CallOnShelf(s, a, l); }
  }

  /** What an order took comes back: whatever happened in between, the step that returns its stock puts back on every
      counted shelf exactly the portions that placing it took off. */
  lemma WhatWasTakenComesBack(s: State, p: Placement, between: seq<Action>, a: Action, l: ListingId)
    requires Consistent(s) && Creates(s, p) && Tracked(s, l)
    ensures var placed, o := Step(s, PlaceOrder(p)), |s.orders|;
      var t := Run(placed, between);
      && o < |t.orders| && o < |Step(t, a).orders|
      && (!t.orders[o].inventoryRestored && Step(t, a).orders[o].inventoryRestored && Tracked(t, l) ==>
            Shelf(Step(t, a), l) - Shelf(t, l) == Shelf(s, l) - Shelf(placed, l))
  {
    var placed, o := Step(s, PlaceOrder(p)), |s.orders|;
    var t := Run(placed, between);
    StepKeepsConsistent(s, PlaceOrder(p));
    EveryRunIsConsistent(placed, between);
    TermsStayInRuns(placed, between, o);
    ReturnIsHandled(t, a, o, l);
    CreatedTook(s, p, l);
  }
}
