/** Short runs from the empty shop that reach the failing side of the exact conditions. */
module Witnesses {
  import opened Domain
  import opened Pricing
  import opened Inventory
  import opened Ledger
  import opened Lifecycle
  import opened Marketplace
  import opened Consistency
  import opened Views
  import opened Runs
  import opened Finality
  import opened OrderMoney
  import opened Disputes
  import opened Idempotency

  const SELLER := Person(1)
  const BUYER := Person(2)
  const DRIVER := Person(3)
  const EMPTY_SHOP := InitialState(Tariff(500, 500), 0, 0)

  // ---- Cooking an order ----

  /** A dish with two portions, for delivery or pickup. */
  function Dish(priceCents: int): Listing {
    Listing(SELLER, priceCents, Some(2), true, Both, map[])
  }

  function Basket(choice: Fulfillment): Placement {
    Placement(BUYER, [CartLine(0, 1, [])], choice, None, false, Recorded(7))
  }

  /** One portion, ordered. */
  function Ordered(priceCents: int, choice: Fulfillment): seq<Action> {
    [EditListing(0, Dish(priceCents)), PlaceOrder(Basket(choice))]
  }

  /** Ordered, paid, prepared and ready. */
  function Cooked(priceCents: int, choice: Fulfillment): seq<Action> {
    Ordered(priceCents, choice)
    + [OnOrder(0, PaymentSucceeded(7)), OnOrder(0, StartPreparing(SELLER)), OnOrder(0, MarkReady(SELLER, 5))]
  }

  lemma RunAppend(s: State, actions: seq<Action>, a: Action)
    ensures Run(s, actions + [a]) == Step(Run(s, actions), a)
  {
    assert (actions + [a])[..|actions|] == actions;
  }

  function FirstTerms(priceCents: int, choice: Fulfillment): Terms {
    var totals := PriceOrder(priceCents, false, choice.Delivery?, EMPTY_SHOP.tariff);
    Terms(BUYER, SELLER, [OrderItem(0, 1, priceCents, [])], totals.subtotalCents, totals.fulfillmentFeeCents,
          totals.commissionRateBps, totals.commissionCents, totals.sellerEarningsCents, totals.buyerTotalCents)
  }

  /** A shop with one order and at most one delivery, and nothing else going on. */
  predicate OneOrder(s: State, order: Order, deliveries: seq<DeliveryRow>) {
    && s.orders == [order] && s.deliveries == deliveries && s.disputes == [] && s.entries == []
    && s.cancelsInFlight == multiset{} && s.tariff == EMPTY_SHOP.tariff && s.now == 0
  }

  lemma OneItem(priceCents: int)
    ensures Subtotal([OrderItem(0, 1, priceCents, [])]) == priceCents
    ensures Quantity([OrderItem(0, 1, priceCents, [])], 0) == 1
  {
    var items := [OrderItem(0, 1, priceCents, [])];
    assert items[..0] == [];
    assert LineTotal(items[0]) == priceCents;
  }

  lemma BasketSnapshots(listings: Listings, priceCents: int, choice: Fulfillment)
    requires listings == map[0 := Dish(priceCents)]
    ensures ValidCart(listings, Basket(choice).cart, choice)
    ensures Snapshots(listings, Basket(choice).cart, choice) == [OrderItem(0, 1, priceCents, [])]
    ensures CanTake(listings, [OrderItem(0, 1, priceCents, [])])
  {
    OneItem(priceCents);
    assert AddOnPrices(map[], []) == [];
  }

  lemma AfterOrdering(priceCents: int, choice: Fulfillment)
    ensures OneOrder(Run(EMPTY_SHOP, Ordered(priceCents, choice)),
                     Order(FirstTerms(priceCents, choice), OrderStatus.Pending, choice, false, Some(7), None), [])
  {
    var stocked := EditListing(0, Dish(priceCents));
    RunOfTwo(EMPTY_SHOP, stocked, PlaceOrder(Basket(choice)));
    var s := Step(EMPTY_SHOP, stocked);
    assert s == EMPTY_SHOP.(listings := map[0 := Dish(priceCents)], supplied := s.supplied);
    BasketSnapshots(s.listings, priceCents, choice);
    OneItem(priceCents);
    PlacedAlone(s, Basket(choice), [OrderItem(0, 1, priceCents, [])]);
  }

  lemma PlacedAlone(s: State, p: Placement, items: seq<OrderItem>)
    requires p.gate.None? && ValidCart(s.listings, p.cart, p.choice)
    requires items == Snapshots(s.listings, p.cart, p.choice) && CanTake(s.listings, items)
    ensures Step(s, PlaceOrder(p))
         == s.(orders := s.orders + [OrderFor(s.listings, p, s.tariff)], listings := Taken(s.listings, items))
  {
  }

  lemma PayPrepareReady(s: State, order: Order)
    requires OneOrder(s, order, []) && order.status.Pending? && order.paymentIntent.Some?
    requires order.terms.seller == SELLER
    ensures var s1 := Step(s, OnOrder(0, PaymentSucceeded(7)));
      var s2 := Step(s1, OnOrder(0, StartPreparing(SELLER)));
      && OneOrder(s1, order.(status := OrderStatus.Confirmed), [])
      && OneOrder(s2, order.(status := OrderStatus.Preparing), [])
  {
    var s1 := Step(s, OnOrder(0, PaymentSucceeded(7)));
    PaidOnly(s, order);
    PreparedOnly(s1, order.(status := OrderStatus.Confirmed));
  }

  lemma PaidOnly(s: State, order: Order)
    requires OneOrder(s, order, []) && order.status.Pending? && order.paymentIntent.Some?
    ensures OneOrder(Step(s, OnOrder(0, PaymentSucceeded(7))), order.(status := OrderStatus.Confirmed), [])
  {
  }

  lemma PreparedOnly(s: State, order: Order)
    requires OneOrder(s, order, []) && order.status.Confirmed? && order.terms.seller == SELLER
    ensures OneOrder(Step(s, OnOrder(0, StartPreparing(SELLER))), order.(status := OrderStatus.Preparing), [])
  {
  }

  function FirstDelivery(choice: Fulfillment): seq<DeliveryRow> {
    if choice.Delivery? then [NewDelivery(0, 5)] else []
  }

  lemma ReadyOnly(s: State, order: Order)
    requires OneOrder(s, order, []) && order.status.Preparing? && order.terms.seller == SELLER
    ensures OneOrder(Step(s, OnOrder(0, MarkReady(SELLER, 5))), order.(status := OrderStatus.Ready),
                     FirstDelivery(order.choice))
  {
  }

  lemma AfterCooking(priceCents: int, choice: Fulfillment)
    ensures OneOrder(Run(EMPTY_SHOP, Cooked(priceCents, choice)),
                     Order(FirstTerms(priceCents, choice), OrderStatus.Ready, choice, false, Some(7), None),
                     FirstDelivery(choice))
  {
    var r0 := Ordered(priceCents, choice);
    var a1, a2 := OnOrder(0, PaymentSucceeded(7)), OnOrder(0, StartPreparing(SELLER));
    var a3 := OnOrder(0, MarkReady(SELLER, 5));
    AfterOrdering(priceCents, choice);
    var order := Order(FirstTerms(priceCents, choice), OrderStatus.Pending, choice, false, Some(7), None);
    PayPrepareReady(Run(EMPTY_SHOP, r0), order);
    RunAppend(EMPTY_SHOP, r0, a1);
    RunAppend(EMPTY_SHOP, r0 + [a1], a2);
    RunAppend(EMPTY_SHOP, r0 + [a1] + [a2], a3);
    ReadyOnly(Run(EMPTY_SHOP, r0 + [a1] + [a2]), order.(status := OrderStatus.Preparing));
    assert r0 + [a1] + [a2] + [a3] == Cooked(priceCents, choice);
  }

  lemma RunsAreReachable(actions: seq<Action>)
    ensures Reachable(Run(EMPTY_SHOP, actions)) && Consistent(Run(EMPTY_SHOP, actions))
  {
    assert Reachable(Run(InitialState(Tariff(500, 500), 0, 0), actions));
    ReachableIsConsistent(Run(EMPTY_SHOP, actions));
  }

  // ---- A voided order whose delivery is live ----

  /** The buyer complains of a wrong order while a driver is still being looked for. */
  function Refunded(): seq<Action> {
    Cooked(1000, Delivery) + [FileDispute(0, BUYER, WrongOrder, false, false, Accepted(9))]
  }

  lemma ComplaintRefunds(s: State, order: Order)
    requires OneOrder(s, order, FirstDelivery(Delivery)) && order.status.Ready? && order.terms.buyer == BUYER
    requires order.paymentIntent.Some? && order.refund.None?
    ensures var s' := Step(s, FileDispute(0, BUYER, WrongOrder, false, false, Accepted(9)));
      s'.orders == [order.(status := OrderStatus.Refunded, refund := Some(9))] && s'.deliveries == s.deliveries
  {
  }

  /** A reachable order that is REFUNDED while its delivery is live, so it is not final: the driver's claim and pickup
      scan put it back IN_DELIVERY, with the refund already made. */
  lemma VoidedOrderCanBeLive()
    ensures var s := Run(EMPTY_SHOP, Refunded());
      && Reachable(s) && |s.orders| == 1
      && Voided(s.orders[0].status) && Live(LatestRow(s, 0))
      && var s' := Run(s, Revival(0, NewDelivery(0, 5), DRIVER));
         0 < |s'.orders| && RefundedButActive(s'.orders[0])
  {
    var cooked := Cooked(1000, Delivery);
    AfterCooking(1000, Delivery);
    var order := Order(FirstTerms(1000, Delivery), OrderStatus.Ready, Delivery, false, Some(7), None);
    ComplaintRefunds(Run(EMPTY_SHOP, cooked), order);
    RunAppend(EMPTY_SHOP, cooked, FileDispute(0, BUYER, WrongOrder, false, false, Accepted(9)));
    RunsAreReachable(Refunded());
    var s := Run(EMPTY_SHOP, Refunded());
    OnlyDelivery(s, NewDelivery(0, 5));
    LiveOrderCanComeBack(s, 0, DRIVER);
    RefundStays(s, Revival(0, NewDelivery(0, 5), DRIVER), 0);
  }

  lemma OnlyDelivery(s: State, row: DeliveryRow)
    requires |s.orders| == 1 && s.deliveries == [row] && row.order == 0
    ensures LatestDelivery(s.deliveries, 0) == Some(0) && LatestRow(s, 0) == Some(row)
  {
  }

  lemma {:induction false} RefundStays(s: State, actions: seq<Action>, o: OrderId)
    requires Consistent(s) && o < |s.orders| && s.orders[o].refund.Some?
    ensures o < |Run(s, actions).orders| && Run(s, actions).orders[o].refund == s.orders[o].refund
  {
    if actions == [] {
    } else {
      var n := |actions| - 1;
      RefundStays(s, actions[..n], o);
      EveryRunIsConsistent(s, actions[..n]);
      TermsStay(Run(s, actions[..n]), actions[n], o);
    }
  }

  // ---- A refund on an order that was handed over ----

  /** The seller starts to cancel, the buyer collects, and the cancel's transaction comes too late for all but the
      refund. */
  function LostRace(): seq<Action> {
    Cooked(1000, Pickup) + [BeginCancel(0, SELLER)] + [OnOrder(0, ConfirmPickup(BUYER))]
    + [CommitCancel(0, Accepted(9))]
  }

  lemma CancelBegins(s: State, order: Order)
    requires OneOrder(s, order, []) && order.status.Ready? && order.terms.seller == SELLER
    ensures Step(s, BeginCancel(0, SELLER)) == s.(cancelsInFlight := multiset{0})
  {
  }

  lemma BuyerCollects(s: State, order: Order)
    requires s.orders == [order] && s.deliveries == [] && order.status.Ready? && order.choice.Pickup?
    requires order.terms.buyer == BUYER
    ensures var s' := Step(s, OnOrder(0, ConfirmPickup(BUYER)));
      && s'.orders == [order.(status := OrderStatus.Delivered)]
      && s'.deliveries == [] && s'.cancelsInFlight == s.cancelsInFlight
  {
  }

  lemma RefundComesTooLate(s: State, order: Order)
    requires s.orders == [order] && 0 in s.cancelsInFlight
    requires order.status.Delivered? && order.paymentIntent.Some? && order.refund.None?
    ensures Step(s, CommitCancel(0, Accepted(9))).orders == [order.(refund := Some(9))]
  {
  }

  lemma RefundedOrderCanBeDelivered()
    ensures var s := Run(EMPTY_SHOP, LostRace());
      && Reachable(s) && |s.orders| == 1
      && s.orders[0].status.Delivered? && RefundedButActive(s.orders[0])
  {
    var cooked := Cooked(1000, Pickup);
    var begin, collect := BeginCancel(0, SELLER), OnOrder(0, ConfirmPickup(BUYER));
    var commit := CommitCancel(0, Accepted(9));
    AfterCooking(1000, Pickup);
    var order := Order(FirstTerms(1000, Pickup), OrderStatus.Ready, Pickup, false, Some(7), None);
    RunAppend(EMPTY_SHOP, cooked, begin);
    RunAppend(EMPTY_SHOP, cooked + [begin], collect);
    RunAppend(EMPTY_SHOP, cooked + [begin] + [collect], commit);
    CancelBegins(Run(EMPTY_SHOP, cooked), order);
    BuyerCollects(Run(EMPTY_SHOP, cooked + [begin]), order);
    RefundComesTooLate(Run(EMPTY_SHOP, cooked + [begin] + [collect]), order.(status := OrderStatus.Delivered));
    RunsAreReachable(LostRace());
  }

  // ---- A ledger that pays out more than the buyer paid ----

  /** A dish of 60 cents, collected. */
  function SmallCart(): seq<Action> {
    Cooked(60, Pickup) + [OnOrder(0, ConfirmPickup(BUYER))]
  }

  lemma LedgerCanExceedTheTotal()
    ensures var s := Run(EMPTY_SHOP, SmallCart());
      && Reachable(s) && |s.orders| == 1 && s.orders[0].status.Delivered?
      && PositiveTotal(Rows(s.entries, 0)) > s.orders[0].terms.buyerTotalCents
  {
    var cooked := Cooked(60, Pickup);
    AfterCooking(60, Pickup);
    var order := Order(FirstTerms(60, Pickup), OrderStatus.Ready, Pickup, false, Some(7), None);
    RunAppend(EMPTY_SHOP, cooked, OnOrder(0, ConfirmPickup(BUYER)));
    BuyerCollects(Run(EMPTY_SHOP, cooked), order);
    RunsAreReachable(SmallCart());
    CapHoldsExactlyWhenCovered(Run(EMPTY_SHOP, SmallCart()), 0);
  }

  // ---- A chargeback on an order still PENDING ----

  function ChargedBack(): seq<Action> {
    Ordered(1000, Delivery) + [ChargeDispute(0, StripeDispute(4, ""))] + [ApproveDispute(0, Accepted(9))]
  }

  lemma PendingOrderCanBeRefunded()
    ensures var before, after := Run(EMPTY_SHOP, Ordered(1000, Delivery)), Run(EMPTY_SHOP, ChargedBack());
      && |before.orders| == 1 && before.orders[0].status.Pending?
      && Reachable(after) && |after.orders| >= 1 && after.orders[0].status.Refunded?
  {
    var r := Ordered(1000, Delivery);
    var charge, approve := ChargeDispute(0, StripeDispute(4, "")), ApproveDispute(0, Accepted(9));
    AfterOrdering(1000, Delivery);
    RunsAreReachable(r);
    RunsAreReachable(ChargedBack());
    ChargebackCanRefundPending(Run(EMPTY_SHOP, r), 0, StripeDispute(4, ""), Accepted(9));
    RunAppend(EMPTY_SHOP, r, charge);
    RunAppend(EMPTY_SHOP, r + [charge], approve);
    RunOfTwo(Run(EMPTY_SHOP, r), charge, approve);
  }

  // ---- Two orders from one idempotency key ----

  /** The same request twice: Stripe refuses the first time and accepts the second. */
  function Attempt(intent: Intent): Request {
    Request(BUYER, true, Some(1), Body([CartLine(0, 1, [])], Delivery, ""), Circumstances(None, false, intent, 8))
  }

  function Shop(): Site {
    Site(Step(EMPTY_SHOP, EditListing(0, Dish(1000))), map[])
  }

  lemma RetryIsASecondOrder()
    ensures var first := Post(Shop(), Attempt(NoIntent));
      var second := Post(first.site, Attempt(Recorded(7)));
      && first.result.Threw? && |first.site.state.orders| == 1 && first.site.keys == map[]
      && second.result.Replied? && second.result.response.order == 1 && |second.site.state.orders| == 2
  {
    var s := Shop().state;
    var items := [OrderItem(0, 1, 1000, [])];
    BasketSnapshots(s.listings, 1000, Delivery);
    OneItem(1000);
    var refused, accepted := PlacementOf(Attempt(NoIntent)), PlacementOf(Attempt(Recorded(7)));
    PlacingGrows(s, refused);
    PlacedAlone(s, refused, items);
    var t := Step(s, PlaceOrder(refused));
    OnePortionLeft(s.listings, items);
    PlacingGrows(t, accepted);
  }

  lemma OnePortionLeft(listings: Listings, items: seq<OrderItem>)
    requires listings == map[0 := Dish(1000)] && items == [OrderItem(0, 1, 1000, [])]
    ensures var left := Taken(listings, items);
      && ValidCart(left, [CartLine(0, 1, [])], Delivery)
      && Snapshots(left, [CartLine(0, 1, [])], Delivery) == items
      && CanTake(left, items)
  {
    OneItem(1000);
    assert Taken(listings, items)[0] == Dish(1000).(portionsLeft := Some(1));
    assert AddOnPrices(map[], []) == [];
  }
}
