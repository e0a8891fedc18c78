/** Portions taken by a cart, held by orders and handed back by cancellations. */
module Inventory {
  import opened Domain

  /** What the items ask of one listing; a cart may repeat a listing. */
  function Quantity(items: seq<OrderItem>, l: ListingId): nat {
    if items == [] then 0
    else
      var last := items[|items| - 1];
      Quantity(items[..|items| - 1], l) + if last.listing == l then last.quantity else 0
  }

  function WithPortions(listing: Listing, delta: int): Listing {
    if listing.portionsLeft.Some? && listing.portionsLeft.value + delta >= 0
    then listing.(portionsLeft := Some(listing.portionsLeft.value + delta))
    else listing
  }

  /** `portionsLeft + qty` on every listing of the order; an untracked listing (null) stays untracked. */
  function Restocked(listings: Listings, items: seq<OrderItem>): Listings {
    map l | l in listings :: WithPortions(listings[l], Quantity(items, l))
  }

  predicate Stocks(listings: Listings, l: ListingId, quantity: nat) {
    l in listings && listings[l].portionsLeft.Some? && quantity <= listings[l].portionsLeft.value
  }

  /** The guarded UPDATE matches a row for every listing of the cart. */
  predicate CanTake(listings: Listings, items: seq<OrderItem>) {
    forall i :: 0 <= i < |items| ==> Stocks(listings, items[i].listing, Quantity(items, items[i].listing))
  }

  function Taken(listings: Listings, items: seq<OrderItem>): Listings {
    map l | l in listings :: WithPortions(listings[l], 0 - Quantity(items, l))
  }

  lemma {:induction false} QuantityNeedsALine(items: seq<OrderItem>, l: ListingId)
    requires forall i :: 0 <= i < |items| ==> items[i].listing != l
    ensures Quantity(items, l) == 0
  {
    if items == [] {
    } else {
      QuantityNeedsALine(items[..|items| - 1], l);
    }
  }

  /** What one order still holds of a listing: everything until its stock went back. */
  function Holds(order: Order, l: ListingId): nat {
    if order.inventoryRestored then 0 else Quantity(order.terms.items, l)
  }

  function HeldByOrders(orders: seq<Order>, l: ListingId): nat {
    if orders == [] then 0
    else HeldByOrders(orders[..|orders| - 1], l) + Holds(orders[|orders| - 1], l)
  }

  lemma {:induction false} HeldAfterUpdate(orders: seq<Order>, o: OrderId, order: Order, l: ListingId)
    requires o < |orders|
    ensures HeldByOrders(orders[o := order], l) == HeldByOrders(orders, l) - Holds(orders[o], l) + Holds(order, l)
  {
    var n := |orders| - 1;
    if o == n {
      assert orders[o := order][..n] == orders[..n];
    } else {
      assert orders[o := order][..n] == orders[..n][o := order];
      HeldAfterUpdate(orders[..n], o, order, l);
    }
  }

  lemma HeldAfterAppend(orders: seq<Order>, order: Order, l: ListingId)
    ensures HeldByOrders(orders + [order], l) == HeldByOrders(orders, l) + Holds(order, l)
  {
    assert (orders + [order])[..|orders|] == orders;
  }
}
