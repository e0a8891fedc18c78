/** Stripe's webhooks and the durable timer jobs: the writers that come from outside a request
    (src/modules/payments/webhooks/stripe-webhook-handler.service.ts, src/jobs/order-timers.processor.ts). */
module Webhooks {
  import opened Domain
  import opened Inventory
  import opened Lifecycle
  import opened Marketplace
  import opened Runs
  import opened Store
  import opened Orders
  import opened Discipline
  import S = Strikes

  /** The state after the transaction of a failed payment: order and stock. */
  function AfterFailure(s: State, f: FailureInFlight): State
    requires f.order < |s.orders|
  {
    var before := s.orders[f.order];
    var cancelled := CancelAndRestock(before);
    s.(orders := s.orders[f.order := if f.hadIntent then cancelled else cancelled.(paymentIntent := Some(f.intent))],
       listings := if RestocksNow(before, cancelled) then Restocked(s.listings, before.terms.items) else s.listings)
  }

  lemma FailureIsHandled(s: State, f: FailureInFlight)
    requires f in s.failuresInFlight && f.order < |s.orders|
    ensures var s0 := s.(failuresInFlight := s.failuresInFlight - multiset{f});
      Handle(s, CommitFailure(f))
      == if s.orders[f.order].status.Pending? then Reply(AfterFailure(s0, f), Done) else Reply(s0, Skipped)
  {
    var order := CancelAndRestock(s.orders[f.order])
      .(paymentIntent := if f.hadIntent then s.orders[f.order].paymentIntent else Some(f.intent));
    ApplyWithoutBooking(s.(failuresInFlight := s.failuresInFlight - multiset{f}), f.order,
                        LatestDelivery(s.deliveries, f.order), order, LatestRow(s, f.order));
  }

  class StripeWebhookHandler {
    const db: Database
    const orders: OrdersService

    constructor (db: Database, orders: OrdersService)
      ensures this.db == db && this.orders == orders
    {
      this.db, this.orders := db, orders;
    }

    method HandlePaymentIntentSucceeded(o: OrderId, intent: nat) returns (outcome: Outcome)
      requires db.Valid()
      modifies db
      ensures db.Answers(OnOrder(o, PaymentSucceeded(intent)), outcome)
    {
      StepKeepsConsistent(db.Snapshot(), OnOrder(o, PaymentSucceeded(intent)));
      if o >= |db.orders| { return Skipped; }
      var order := db.orders[o];
      if !order.status.Pending? { return Skipped; }
      var confirmed := order.(status := OrderStatus.Confirmed);
      if order.paymentIntent.None? { confirmed := confirmed.(paymentIntent := Some(intent)); }
      OrderWrite(db.Snapshot(), o, LatestDelivery(db.deliveries, o), confirmed);
      db.orders := db.orders[o := confirmed];
      outcome := Done;
    }

    /** The first look at the order: anything but PENDING is left alone. */
    method BeginPaymentIntentFailed(o: OrderId, intent: nat) returns (outcome: Outcome)
      requires db.Valid()
      modifies db
      ensures db.Answers(BeginFailure(o, intent), outcome)
    {
      StepKeepsConsistent(db.Snapshot(), BeginFailure(o, intent));
      if o >= |db.orders| { return Skipped; }
      if !db.orders[o].status.Pending? { return Skipped; }
      db.failuresInFlight := db.failuresInFlight
        + multiset{FailureInFlight(o, intent, db.orders[o].paymentIntent.Some?)};
      outcome := Done;
    }

    /** The writes of the transaction. */
    method CancelUnpaid(f: FailureInFlight)
      requires f.order < |db.orders| && orders.db == db
      modifies db`orders, db`listings
      ensures db.Snapshot() == AfterFailure(old(db.Snapshot()), f)
    {
      orders.CancelAndRestore(f.order);
      if !f.hadIntent {
        db.orders := db.orders[f.order := db.orders[f.order].(paymentIntent := Some(f.intent))];
      }
    }

    /** The transaction re-reads the order; whether the intent is backfilled was decided at the first look. */
    method CommitPaymentIntentFailed(f: FailureInFlight) returns (outcome: Outcome)
      requires db.Valid() && f in db.failuresInFlight && orders.db == db
      modifies db
      ensures db.Answers(CommitFailure(f), outcome)
    {
      StepKeepsConsistent(db.Snapshot(), CommitFailure(f));
      FailureIsHandled(db.Snapshot(), f);
      db.failuresInFlight := db.failuresInFlight - multiset{f};
      if !db.orders[f.order].status.Pending? { return Skipped; }
      CancelUnpaid(f);
      outcome := Done;
    }

    /** A chargeback is recorded once per Stripe dispute, for an admin to review; a later event about it refreshes its
        payload and never its status. */
    method HandleChargeDispute(o: OrderId, stripeDispute: StripeDispute) returns (outcome: Outcome)
      requires db.Valid()
      modifies db
      ensures db.Answers(ChargeDispute(o, stripeDispute), outcome)
    {
      StepKeepsConsistent(db.Snapshot(), ChargeDispute(o, stripeDispute));
      if o >= |db.orders| { return Skipped; }
      var existing := FindDispute(stripeDispute.id);
      if existing.Some? {
        db.disputes := db.disputes[existing.value := db.disputes[existing.value].(stripe := Some(stripeDispute))];
      } else {
        db.disputes := db.disputes + [Dispute(o, Chargeback, AdminReview, false, None, Some(stripeDispute))];
      }
      outcome := Done;
    }

    /** `findUnique` on the Stripe dispute id */
    method FindDispute(id: nat) returns (existing: Option<nat>)
      ensures existing == FindStripeDispute(db.disputes, id)
    {
      existing := None;
      for i := 0 to |db.disputes|
        invariant existing == FindStripeDispute(db.disputes[..i], id)
      {
        assert db.disputes[..i + 1][..i] == db.disputes[..i];
        if existing.None? && IsStripeDispute(db.disputes[i], id) { existing := Some(i); }
      }
      assert db.disputes[..|db.disputes|] == db.disputes;
    }
  }

  datatype Job =
    | NoDriverTimeoutJob(order: Option<OrderId>)
    | NoDriverBuyerResponseTimeoutJob(order: Option<OrderId>)
    | DriverDeliveryTimeoutJob(delivery: Option<DeliveryId>)
    | UnknownJob

  /** The timer action behind a job, if its data carries the id it needs. */
  function JobAction(job: Job, stripe: StripeReply): Option<Action> {
    match job
    case NoDriverTimeoutJob(Some(o)) => Some(OnOrder(o, NoDriverTimeout))
    case NoDriverBuyerResponseTimeoutJob(Some(o)) => Some(OnOrder(o, Event.AutoCancelNoResponse(stripe)))
    case DriverDeliveryTimeoutJob(Some(d)) => Some(OnDelivery(d, DriverTimeout(stripe)))
    case _ => None
  }

  class OrderTimersProcessor {
    const orders: OrdersService

    constructor (orders: OrdersService)
      ensures this.orders == orders
    {
      this.orders := orders;
    }

    /** A job does exactly what the timer's handler does, so a job that duplicates an in-process timer is one more
        firing of it. */
    method Process(job: Job, stripe: StripeReply, struck: bool) returns (outcome: Outcome)
      requires orders.db.Valid() && orders.wallet.db == orders.db
      modifies orders.db, orders.strikes
      ensures var a := JobAction(job, stripe);
        if a.Some? then orders.db.Answers(a.value, outcome)
        else outcome.Skipped? && orders.db.Snapshot() == old(orders.db.Snapshot()) && orders.db.Valid()
      ensures var a := JobAction(job, stripe);
        orders.strikes.Snapshot() == Punished(old(orders.strikes.Snapshot()),
          if a.Some? then Penalty(old(orders.db.Snapshot()), a.value, outcome) else None, struck)
    {
      outcome := Skipped;
      match job
      case NoDriverTimeoutJob(o) =>
        if o.Some? { outcome := orders.HandleNoDriverTimeout(o.value); }
      case NoDriverBuyerResponseTimeoutJob(o) =>
        if o.Some? { outcome := orders.AutoCancelNoResponse(o.value, stripe); }
      case DriverDeliveryTimeoutJob(d) =>
        if d.Some? { outcome := orders.HandleDriverDeliveryTimeout(d.value, stripe, struck); }
      case UnknownJob =>
    }
  }
}
