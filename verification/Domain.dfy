/** The tables, and the records kept by the outside world, that the order, delivery and wallet services share.
    Rows are never deleted and ids are fresh and increasing, so a table is a sequence and a row's id its index. */
module Domain {
  import opened Pricing

  datatype Option<+T> = None | Some(value: T)
  {
    function GetOr(default: T): T {
      if Some? then value else default
    }
  }

  type OrderId = nat
  type DeliveryId = nat
  type ListingId = nat
  type AddOnId = nat
  type Time = int

  /** `Platform` is the synthetic account that holds commissions; it has no user row. */
  datatype User = Platform | Person(id: nat)

  datatype Error = NotFound | Forbidden | Conflict | BadRequest | Unavailable

  datatype Outcome = Done | Skipped | Failed(error: Error)

  // ---- Listings and carts ----

  datatype ListingFulfillment = OnlyDelivery | OnlyPickup | Both

  /** `portionsLeft` is None for cook-to-order dishes; `orderable` is false once deleted, hidden or expired. */
  datatype Listing = Listing(
    seller: User,
    priceCents: int,
    portionsLeft: Option<nat>,
    orderable: bool,
    fulfillment: ListingFulfillment,
    addOns: map<AddOnId, int>)

  type Listings = map<ListingId, Listing>

  datatype CartLine = CartLine(listing: ListingId, quantity: nat, addOns: seq<AddOnId>)

  /** A cart line as stored with the order, with the prices of that moment. */
  datatype OrderItem = OrderItem(listing: ListingId, quantity: nat, unitPriceCents: int, addOnCents: seq<int>)

  // ---- Orders and deliveries ----

  datatype OrderStatus =
    | Pending | Confirmed | Preparing | Ready | PickedUp | InDelivery | Delivered | Completed
    | NoDriverAvailable | Cancelled | Refunded | Disputed

  datatype Fulfillment = Delivery | Pickup

  /** What placing an order fixes: the parties, the items and the money split. */
  datatype Terms = Terms(
    buyer: User,
    seller: User,
    items: seq<OrderItem>,
    subtotalCents: int,
    fulfillmentFeeCents: int,
    commissionRateBps: nat,
    commissionCents: int,
    sellerEarningsCents: int,
    buyerTotalCents: int)

  datatype Order = Order(
    terms: Terms,
    status: OrderStatus,
    choice: Fulfillment,
    inventoryRestored: bool,
    paymentIntent: Option<nat>,
    refund: Option<nat>)

  datatype DeliveryStatus =
    | Unassigned | Searching | Assigned | EnRouteToPickup | AtPickup | PickedUp
    | EnRouteToDropoff | AtDropoff | Delivered | Cancelled | Failed

  datatype DeliveryRow = DeliveryRow(
    order: OrderId,
    status: DeliveryStatus,
    driver: Option<User>,
    pickupToken: Option<nat>,
    pickupConfirmedAt: Option<Time>,
    deliveryToken: Option<nat>,
    deliveredAt: Option<Time>,
    deliveredConfirmedAt: Option<Time>,
    deliveredAsAbsent: bool,
    sellerUnavailableAt: Option<Time>)

  // ---- Wallet ----

  datatype EntryKind = OrderEarning | DeliveryEarning | Commission | RefundEntry | Withdrawal | DriverDebt

  datatype EntryStatus = Pending | Available | Held | PaidOut | Cancelled

  /** The reason kept in a row's metadata; rows booked by a completed order have none. */
  datatype EntryNote = NoNote | SellerUnavailable | DriverDisappeared | Clawback | Transfer

  datatype Entry = Entry(
    user: User,
    order: Option<OrderId>,
    kind: EntryKind,
    amountCents: int,
    status: EntryStatus,
    withdrawal: Option<nat>,
    availableAt: Option<Time>,
    releasedAt: Option<Time>,
    note: EntryNote)

  // ---- Disputes ----

  datatype DisputeKind =
    | NeverReceived | WrongOrder | SpoiledFood | FoodPoisoning | Subjective | FalseAllergens | Chargeback

  datatype DisputeStatus = Open | AutoRefunded | Rejected | AdminReview | Resolved

  /** Stripe's own dispute, with the payload of its last event. */
  datatype StripeDispute = StripeDispute(id: nat, payload: string)

  /** `refundCents` is the amount of an approved refund, None as long as none is approved. */
  datatype Dispute = Dispute(
    order: OrderId,
    kind: DisputeKind,
    status: DisputeStatus,
    refundRequested: bool,
    refundCents: Option<int>,
    stripe: Option<StripeDispute>)

  // ---- The whole state ----

  /** A Stripe transfer of a withdrawal; its index in the log is the withdrawal id. */
  datatype TransferRecord = TransferRecord(user: User, amountCents: int)

  /** A `payment_failed` event between its first look at the order and its transaction. */
  datatype FailureInFlight = FailureInFlight(order: OrderId, intent: nat, hadIntent: bool)

  /** `supplied` counts, per tracked listing, the portions its seller has ever put up;
      `refundLog` and `transferLog` are what Stripe executed. */
  datatype State = State(
    tariff: Tariff,
    releaseWindow: nat,
    now: Time,
    orders: seq<Order>,
    deliveries: seq<DeliveryRow>,
    listings: Listings,
    supplied: map<ListingId, int>,
    entries: seq<Entry>,
    disputes: seq<Dispute>,
    cancelsInFlight: multiset<OrderId>,
    failuresInFlight: multiset<FailureInFlight>,
    refundLog: seq<OrderId>,
    transferLog: seq<TransferRecord>)

  function InitialState(tariff: Tariff, releaseWindow: nat, now: Time): State {
    State(tariff, releaseWindow, now, [], [], map[], map[], [], [], multiset{}, multiset{}, [], [])
  }

  /** `deliveries orderBy createdAt desc take 1` */
  function LatestDelivery(deliveries: seq<DeliveryRow>, o: OrderId): (d: Option<DeliveryId>)
    ensures d.Some? ==> d.value < |deliveries| && deliveries[d.value].order == o
    ensures d.Some? ==> forall i :: d.value < i < |deliveries| ==> deliveries[i].order != o
    ensures d.None? ==> forall i :: 0 <= i < |deliveries| ==> deliveries[i].order != o
  {
    if deliveries == [] then None
    else if deliveries[|deliveries| - 1].order == o then Some(|deliveries| - 1)
    else LatestDelivery(deliveries[..|deliveries| - 1], o)
  }
}
