/** What the app shows of an order, recomputed from its stored snapshots
    (src/modules/orders/dto/order-response.dto.ts). */
module Receipts {
  import opened Domain
  import opened Pricing
  import opened Marketplace
  import opened Consistency
  import opened Views
  import opened Runs
  import opened Finality

  datatype ItemResponse = ItemResponse(
    listing: ListingId,
    unitPriceCents: int,
    quantity: nat,
    lineTotalCents: int,
    addOnCents: seq<int>)

  datatype OrderResponse = OrderResponse(totals: OrderTotals, items: seq<ItemResponse>)

  /** `OrderItemResponseDto.from` */
  function ItemFrom(item: OrderItem): ItemResponse {
    ItemResponse(item.listing, item.unitPriceCents, item.quantity,
                 (item.unitPriceCents + Total(item.addOnCents)) * item.quantity, item.addOnCents)
  }

  /** `OrderResponseDto.from`: the platform fee is not stored, it is what the other amounts leave of the total. */
  function OrderFrom(order: Order): OrderResponse {
    var t := order.terms;
    OrderResponse(
      OrderTotals(t.subtotalCents, t.fulfillmentFeeCents, t.commissionRateBps, t.commissionCents, t.sellerEarningsCents,
                  t.buyerTotalCents - t.subtotalCents - t.fulfillmentFeeCents, t.buyerTotalCents),
      seq(|t.items|, i requires 0 <= i < |t.items| => ItemFrom(t.items[i])))
  }

  function LineTotals(items: seq<ItemResponse>): int {
    if items == [] then 0 else LineTotals(items[..|items| - 1]) + items[|items| - 1].lineTotalCents
  }

  lemma {:induction false} LineTotalsAreTheSubtotal(order: Order)
    ensures LineTotals(OrderFrom(order).items) == Subtotal(order.terms.items)
    decreases |order.terms.items|
  {
    if order.terms.items == [] {
    } else {
      var n := |order.terms.items| - 1;
      var shorter := order.(terms := order.terms.(items := order.terms.items[..n]));
      LineTotalsAreTheSubtotal(shorter);
      assert OrderFrom(order).items[..n] == OrderFrom(shorter).items;
    }
  }

  /** The response of an order, reduced to the pricing function on its own line totals. */
  predicate RecomputesPrices(r: OrderResponse, tariff: Tariff) {
    r.totals == PriceOrder(LineTotals(r.items), r.totals.commissionRateBps == COMMISSION_RATE_BPS_PREMIUM,
                           r.totals.fulfillmentFeeCents == tariff.deliveryFeeCents, tariff)
  }

  lemma PricedOrderRecomputes(order: Order, tariff: Tariff)
    requires Priced(order, tariff)
    ensures RecomputesPrices(OrderFrom(order), tariff)
  {
    LineTotalsAreTheSubtotal(order);
  }

  /** In every reachable state the response of an order is the pricing function applied to its own line totals: the
      subtotal is their sum, and every amount, the platform fee that was never stored included, is the one the pricing
      function computes from it (the fee of an order switched to pickup stays what it was). */
  lemma ResponseRecomputesPrices(s: State, o: OrderId)
    requires Reachable(s) && o < |s.orders|
    ensures RecomputesPrices(OrderFrom(s.orders[o]), s.tariff)
  {
    ReachableIsConsistent(s);
    assert Good(ViewOf(s, o), o, s.tariff, s.now, s.releaseWindow);
    PricedOrderRecomputes(s.orders[o], s.tariff);
  }

  /** The response lists the cart at the given prices and charges what the pricing function asks for them. */
  predicate ListsCart(r: OrderResponse, listings: Listings, p: Placement, tariff: Tariff)
    requires ValidCart(listings, p.cart, p.choice)
  {
    && |r.items| == |p.cart|
    && (forall i :: 0 <= i < |p.cart| ==>
          && r.items[i].listing == p.cart[i].listing && r.items[i].quantity == p.cart[i].quantity
          && r.items[i].unitPriceCents == listings[p.cart[i].listing].priceCents
          && r.items[i].lineTotalCents == LivePrice(listings, p.cart[i]) * p.cart[i].quantity)
    && r.totals == PriceOrder(LineTotals(r.items), p.isPremium, p.choice.Delivery?, tariff)
  }

  /** One portion of a cart line with its add-ons, at the listing's current prices. */
  function LivePrice(listings: Listings, line: CartLine): int
    requires line.listing in listings
    requires forall k :: 0 <= k < |line.addOns| ==> line.addOns[k] in listings[line.listing].addOns
  {
    listings[line.listing].priceCents + Total(AddOnPrices(listings[line.listing].addOns, line.addOns))
  }

  lemma NewLine(listings: Listings, p: Placement, i: nat)
    requires ValidCart(listings, p.cart, p.choice) && i < |p.cart|
    ensures ItemFrom(Snapshots(listings, p.cart, p.choice)[i]).lineTotalCents
         == LivePrice(listings, p.cart[i]) * p.cart[i].quantity
  {
  }

  lemma NewReceipt(listings: Listings, p: Placement, tariff: Tariff)
    requires ValidCart(listings, p.cart, p.choice)
    ensures ListsCart(OrderFrom(OrderFor(listings, p, tariff)), listings, p, tariff)
  {
    var order := OrderFor(listings, p, tariff);
    LineTotalsAreTheSubtotal(order);
    forall i | 0 <= i < |p.cart|
      ensures OrderFrom(order).items[i].lineTotalCents == LivePrice(listings, p.cart[i]) * p.cart[i].quantity
    {
      NewLine(listings, p, i);
    }
  }

  /** The response to a new order lists the cart at the prices of that moment and charges what the pricing function
      asks for them. */
  lemma NewOrderRoundTrip(s: State, p: Placement)
    requires Handle(s, PlaceOrder(p)).outcome.Done?
    ensures ValidCart(s.listings, p.cart, p.choice)
    ensures var orders := Step(s, PlaceOrder(p)).orders;
      |orders| == |s.orders| + 1 && ListsCart(OrderFrom(orders[|s.orders|]), s.listings, p, s.tariff)
  {
    PlacedOrder(s, p);
    NewReceipt(s.listings, p, s.tariff);
  }

  lemma PlacedOrder(s: State, p: Placement)
    requires Handle(s, PlaceOrder(p)).outcome.Done?
    ensures p.gate.None? && ValidCart(s.listings, p.cart, p.choice)
    ensures Step(s, PlaceOrder(p)).orders == s.orders + [OrderFor(s.listings, p, s.tariff)]
  {
  }

  /** Sellers may edit prices and stock at will: nothing the receipt of an order shows ever changes. */
  lemma {:induction false} ReceiptNeverChanges(s: State, actions: seq<Action>, o: OrderId)
    requires Consistent(s) && o < |s.orders|
    ensures var s' := Run(s, actions);
      o < |s'.orders| && OrderFrom(s'.orders[o]) == OrderFrom(s.orders[o])
  {
    if actions == [] {
    } else {
      var n := |actions| - 1;
      ReceiptNeverChanges(s, actions[..n], o);
      EveryRunIsConsistent(s, actions[..n]);
      TermsStay(Run(s, actions[..n]), actions[n], o);
    }
  }
}
