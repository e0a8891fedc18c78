/** What a new order is charged, read off the stored order and its receipt: every portion and every add-on counts. */
module Charges {
  import opened Domain
  import opened Pricing
  import opened Marketplace
  import opened Receipts

  /** Placing wrote an order; whether Stripe then took the payment is another matter. */
  predicate Creates(s: State, p: Placement) {
    |Step(s, PlaceOrder(p)).orders| == |s.orders| + 1
  }

  function Created(s: State, p: Placement): Order
    requires Creates(s, p)
  {
    Step(s, PlaceOrder(p)).orders[|s.orders|]
  }

  lemma CreatedFromCart(s: State, p: Placement)
    requires Creates(s, p)
    ensures ValidCart(s.listings, p.cart, p.choice) && Created(s, p) == OrderFor(s.listings, p, s.tariff)
  {
  }

  // ---- The order as it is first stored ----

  /** The stored line holds the cart line at the listing's prices of the moment. */
  predicate StoredAs(item: OrderItem, line: CartLine, listings: Listings) {
    && line.listing in listings
    && item.listing == line.listing && item.quantity == line.quantity
    && item.unitPriceCents == listings[line.listing].priceCents
    && |item.addOnCents| == |line.addOns|
    && forall k :: 0 <= k < |line.addOns| ==>
         line.addOns[k] in listings[line.listing].addOns
         && item.addOnCents[k] == listings[line.listing].addOns[line.addOns[k]]
  }

  /** A new order is PENDING, belongs to its buyer and to the seller of every dish in it, holds its stock, and has no
      refund. */
  lemma OrderIsStoredAsAsked(s: State, p: Placement)
    requires Creates(s, p)
    ensures var order := Created(s, p);
      && order.status.Pending? && order.choice == p.choice && !order.inventoryRestored && order.refund.None?
      && order.paymentIntent == (if p.intent.Recorded? then Some(p.intent.id) else None)
      && order.terms.buyer == p.buyer && |p.cart| > 0 && |order.terms.items| == |p.cart|
      && (forall i :: 0 <= i < |p.cart| ==>
            && StoredAs(order.terms.items[i], p.cart[i], s.listings)
            && s.listings[p.cart[i].listing].seller == order.terms.seller && s.listings[p.cart[i].listing].orderable)
  {
    CreatedFromCart(s, p);
  }

  predicate RoundedShare(fee: int, amount: int, bps: nat) {
    -10_000 < 2 * (10_000 * fee - amount * bps) <= 10_000
  }

  /** The money split of a new order, from its subtotal: the delivery fee for delivery only, the platform's share of
      both, a quarter or three tenths of the subtotal (at least one euro) as commission, and the rest to the seller. */
  lemma OrderIsSplitByTheTariff(s: State, p: Placement)
    requires Creates(s, p)
    ensures var t := Created(s, p).terms;
      && t.fulfillmentFeeCents == (if p.choice.Delivery? then s.tariff.deliveryFeeCents else 0)
      && t.commissionRateBps == (if p.isPremium then 2_500 else 3_000)
      && RoundedShare(t.buyerTotalCents - t.subtotalCents - t.fulfillmentFeeCents,
                      t.subtotalCents + t.fulfillmentFeeCents, s.tariff.platformBuyerFeeBps)
      && t.sellerEarningsCents == t.subtotalCents - t.commissionCents
      && (if t.subtotalCents < (if p.isPremium then 398 else 332) then t.commissionCents == 100
          else RoundedShare(t.commissionCents, t.subtotalCents, t.commissionRateBps))
  {
    CreatedFromCart(s, p);
    FeesAreExactUpToHalfACent(Created(s, p).terms.subtotalCents, p.isPremium, p.choice.Delivery?, s.tariff);
  }

  // ---- The subtotal, one line and one add-on at a time ----

  lemma SubtotalOfMore(items: seq<OrderItem>, item: OrderItem)
    ensures Subtotal(items + [item]) == Subtotal(items) + LineTotal(item)
  {
    assert (items + [item])[..|items|] == items;
  }

  lemma {:induction false} SubtotalAfterUpdate(items: seq<OrderItem>, i: nat, item: OrderItem)
    requires i < |items|
    ensures Subtotal(items[i := item]) == Subtotal(items) - LineTotal(items[i]) + LineTotal(item)
  {
    var n := |items| - 1;
    if i == n {
      assert items[i := item][..n] == items[..n];
    } else {
      assert items[i := item][..n] == items[..n][i := item];
      SubtotalAfterUpdate(items[..n], i, item);
    }
  }

  lemma TotalOfMore(cents: seq<int>, x: int)
    ensures Total(cents + [x]) == Total(cents) + x
  {
    assert (cents + [x])[..|cents|] == cents;
  }

  lemma PlainLineTotal(listings: Listings, cart: seq<CartLine>, choice: Fulfillment, i: nat)
    requires ValidCart(listings, cart, choice) && i < |cart| && cart[i].addOns == []
    ensures LineTotal(Snapshots(listings, cart, choice)[i]) == listings[cart[i].listing].priceCents * cart[i].quantity
  {
    assert AddOnPrices(listings[cart[i].listing].addOns, []) == [];
  }

  /** One line without add-ons costs its price times its quantity. */
  lemma OneLineCosts(s: State, p: Placement, line: CartLine)
    requires Creates(s, p) && p.cart == [line] && line.addOns == []
    ensures line.listing in s.listings
    ensures Created(s, p).terms.subtotalCents == s.listings[line.listing].priceCents * line.quantity
  {
    CreatedFromCart(s, p);
    PlainLineTotal(s.listings, p.cart, p.choice, 0);
    var items := Snapshots(s.listings, p.cart, p.choice);
    SubtotalOfMore([], items[0]);
    assert items == [] + [items[0]];
  }

  /** Another line without add-ons raises the stored subtotal by exactly its price times its quantity. */
  lemma AnotherLineAdds(s: State, p: Placement, line: CartLine)
    requires Creates(s, p) && Creates(s, p.(cart := p.cart + [line])) && line.addOns == []
    ensures line.listing in s.listings
    ensures Created(s, p.(cart := p.cart + [line])).terms.subtotalCents
         == Created(s, p).terms.subtotalCents + s.listings[line.listing].priceCents * line.quantity
  {
    var p' := p.(cart := p.cart + [line]);
    CreatedFromCart(s, p);
    CreatedFromCart(s, p');
    PlainLineTotal(s.listings, p'.cart, p.choice, |p.cart|);
    var items, items' := Snapshots(s.listings, p.cart, p.choice), Snapshots(s.listings, p'.cart, p.choice);
    assert items' == items + [items'[|p.cart|]];
    SubtotalOfMore(items, items'[|p.cart|]);
  }

  function WithAddOn(p: Placement, i: nat, addOn: AddOnId): Placement
    requires i < |p.cart|
  {
    p.(cart := p.cart[i := p.cart[i].(addOns := p.cart[i].addOns + [addOn])])
  }

  /** One more add-on on a line of q portions raises the stored subtotal, and the total of that line on the receipt, by
      exactly q times its price; the other lines of the receipt stay as they are. */
  lemma AnotherAddOnAdds(s: State, p: Placement, i: nat, addOn: AddOnId)
    requires i < |p.cart| && Creates(s, p) && Creates(s, WithAddOn(p, i, addOn))
    ensures p.cart[i].listing in s.listings && addOn in s.listings[p.cart[i].listing].addOns
    ensures var more := s.listings[p.cart[i].listing].addOns[addOn] * p.cart[i].quantity;
      var before, after := Created(s, p), Created(s, WithAddOn(p, i, addOn));
      var shown, shown' := OrderFrom(before).items, OrderFrom(after).items;
      && after.terms.subtotalCents == before.terms.subtotalCents + more
      && |shown| == |shown'| == |p.cart|
      && shown'[i].lineTotalCents == shown[i].lineTotalCents + more
      && forall k :: 0 <= k < |p.cart| && k != i ==> shown'[k] == shown[k]
  {
    var p' := WithAddOn(p, i, addOn);
    CreatedFromCart(s, p);
    CreatedFromCart(s, p');
    assert p'.cart[i].addOns[|p.cart[i].addOns|] == addOn;
    AddOnOnItems(s.listings, p, i, addOn);
    var items, items' := Snapshots(s.listings, p.cart, p.choice), Snapshots(s.listings, p'.cart, p.choice);
    SubtotalAfterUpdate(items, i, items'[i]);
  }

  lemma AddOnOnItems(listings: Listings, p: Placement, i: nat, addOn: AddOnId)
    requires i < |p.cart| && ValidCart(listings, p.cart, p.choice)
    requires ValidCart(listings, WithAddOn(p, i, addOn).cart, p.choice)
    requires addOn in listings[p.cart[i].listing].addOns
    ensures var items := Snapshots(listings, p.cart, p.choice);
      var items' := Snapshots(listings, WithAddOn(p, i, addOn).cart, p.choice);
      && items' == items[i := items'[i]]
      && LineTotal(items'[i])
         == LineTotal(items[i]) + listings[p.cart[i].listing].addOns[addOn] * p.cart[i].quantity
  {
    var line, prices := p.cart[i], listings[p.cart[i].listing].addOns;
    var items := Snapshots(listings, p.cart, p.choice);
    var items' := Snapshots(listings, WithAddOn(p, i, addOn).cart, p.choice);
    assert items' == items[i := items'[i]];
    assert items'[i].addOnCents == items[i].addOnCents + [prices[addOn]];
    LineTotalOfMore(items[i], prices[addOn]);
    assert items'[i] == items[i].(addOnCents := items[i].addOnCents + [prices[addOn]]);
  }

  lemma LineTotalOfMore(item: OrderItem, x: int)
    ensures LineTotal(item.(addOnCents := item.addOnCents + [x])) == LineTotal(item) + x * item.quantity
  {
    TotalOfMore(item.addOnCents, x);
    SumTimes(item.unitPriceCents + Total(item.addOnCents), x, item.quantity);
  }

  lemma SumTimes(a: int, b: int, n: nat)
    ensures (a + b) * n == a * n + b * n
  {
  }
}
