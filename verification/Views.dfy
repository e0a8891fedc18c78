/** A step on one order changes that order's view as its effect says, and no other order's view. */
module Views {
  import opened Domain
  import opened Ledger
  import opened Lifecycle
  import opened Marketplace
  import opened Consistency

  // ---- Links between the tables ----

  /** At most one delivery per order. */
  predicate DeliveriesLinked(deliveries: seq<DeliveryRow>, orders: nat) {
    && (forall i :: 0 <= i < |deliveries| ==> deliveries[i].order < orders)
    && (forall i, j :: 0 <= i < j < |deliveries| ==> deliveries[i].order != deliveries[j].order)
  }

  predicate EntryLinked(e: Entry, orders: nat) {
    if e.order.Some? then e.order.value < orders else e.kind.Withdrawal?
  }

  predicate EntriesLinked(entries: seq<Entry>, orders: nat) {
    forall i :: 0 <= i < |entries| ==> EntryLinked(entries[i], orders)
  }

  predicate Linked(s: State) {
    && DeliveriesLinked(s.deliveries, |s.orders|)
    && EntriesLinked(s.entries, |s.orders|)
    && (forall i :: 0 <= i < |s.refundLog| ==> s.refundLog[i] < |s.orders|)
    && (forall i :: 0 <= i < |s.disputes| ==> s.disputes[i].order < |s.orders|)
    && (forall o :: o in s.cancelsInFlight ==> o < |s.orders|)
    && (forall f :: f in s.failuresInFlight ==> f.order < |s.orders|)
  }

  predicate AllGood(s: State) {
    forall o :: 0 <= o < |s.orders| ==> Good(ViewOf(s, o), o, s.tariff, s.now, s.releaseWindow)
  }

  predicate Consistent(s: State) {
    Linked(s) && AllGood(s)
  }

  lemma OneDeliveryPerOrder(s: State, d: DeliveryId)
    requires Linked(s) && d < |s.deliveries|
    ensures LatestDelivery(s.deliveries, s.deliveries[d].order) == Some(d)
  {
    var l := LatestDelivery(s.deliveries, s.deliveries[d].order);
    assert l.Some? && s.deliveries[l.value].order == s.deliveries[d].order;
  }

  // ---- The tables after a write ----

  lemma {:induction false} LatestAfterWrite(deliveries: seq<DeliveryRow>, d: DeliveryId, row: DeliveryRow, p: OrderId)
    requires d < |deliveries| && row.order == deliveries[d].order
    ensures LatestDelivery(deliveries[d := row], p) == LatestDelivery(deliveries, p)
  {
    var n := |deliveries| - 1;
    if d == n {
      assert deliveries[d := row][..n] == deliveries[..n];
    } else {
      assert deliveries[d := row][..n] == deliveries[..n][d := row];
      LatestAfterWrite(deliveries[..n], d, row, p);
    }
  }

  lemma LatestAfterAppend(deliveries: seq<DeliveryRow>, row: DeliveryRow, p: OrderId)
    ensures LatestDelivery(deliveries + [row], p)
         == if row.order == p then Some(|deliveries|) else LatestDelivery(deliveries, p)
  {
    assert (deliveries + [row])[..|deliveries|] == deliveries;
  }

  lemma RefundsAfterAppend(log: seq<OrderId>, o: OrderId, p: OrderId)
    ensures Refunds(log + [o], p) == Refunds(log, p) + if o == p then 1 else 0
  {
    assert (log + [o])[..|log|] == log;
  }

  lemma RowsAfterReversed(entries: seq<Entry>, o: OrderId, refundsNow: bool, driver: bool, p: OrderId)
    ensures Rows(Reversed(entries, o, refundsNow, driver), p)
         == if p == o then Reversed(Rows(entries, p), o, refundsNow, driver) else Rows(entries, p)
  {
    var es := if driver then Update(Reverse(o, true), entries) else entries;
    RowsAfterUpdate(Reverse(o, true), entries, p);
    RowsAfterUpdate(Reverse(o, false), es, p);
    if p != o {
      ReverseSkipsOtherOrders(o, true, Rows(entries, p), p);
      ReverseSkipsOtherOrders(o, false, Rows(entries, p), p);
    }
  }

  lemma ReverseSkipsOtherOrders(o: OrderId, deliveryOnly: bool, rows: seq<Entry>, p: OrderId)
    requires p != o && forall i :: 0 <= i < |rows| ==> rows[i].order == Some(p)
    ensures Update(Reverse(o, deliveryOnly), rows) == rows
  {
  }

  // ---- Views after an effect ----

  /** The delivery row a handler got is the order's latest one, or the order has none. */
  predicate Addressed(s: State, o: OrderId, d: Option<DeliveryId>) {
    o < |s.orders| && d == LatestDelivery(s.deliveries, o)
  }

  lemma ApplyOnViews(s: State, o: OrderId, d: Option<DeliveryId>, eff: Effect)
    requires Addressed(s, o, d)
    requires eff.delivery.Some? ==> eff.delivery.value.order == o
    requires d.Some? ==> eff.delivery.Some?
    requires forall i :: 0 <= i < |eff.booked| ==> eff.booked[i].order == Some(o)
    ensures var s' := Apply(s, o, d, eff);
      && |s'.orders| == |s.orders|
      && ViewOf(s', o) == After(ViewOf(s, o), o, eff)
      && forall p :: 0 <= p < |s.orders| && p != o ==> ViewOf(s', p) == ViewOf(s, p)
  {
    var s' := Apply(s, o, d, eff);
    forall p | 0 <= p < |s.orders|
      ensures ViewOf(s', p) == if p == o then After(ViewOf(s, o), o, eff) else ViewOf(s, p)
    {
      ApplyOnOneView(s, o, d, eff, p);
    }
  }

  lemma ApplyOnOneView(s: State, o: OrderId, d: Option<DeliveryId>, eff: Effect, p: OrderId)
    requires Addressed(s, o, d) && p < |s.orders|
    requires eff.delivery.Some? ==> eff.delivery.value.order == o
    requires d.Some? ==> eff.delivery.Some?
    requires forall i :: 0 <= i < |eff.booked| ==> eff.booked[i].order == Some(o)
    ensures ViewOf(Apply(s, o, d, eff), p) == if p == o then After(ViewOf(s, o), o, eff) else ViewOf(s, p)
  {
    ViewParts(s, p);
    ViewParts(Apply(s, o, d, eff), p);
    DeliveryAfterWrite(s.deliveries, o, d, eff.delivery, p);
    RefundsAfterAppend(s.refundLog, o, p);
    RowsAfterEffect(s.entries, o, RefundsNow(s.orders[o], eff.order), eff.reverseDriverPay, eff.booked, p);
  }

  lemma ViewParts(s: State, p: OrderId)
    requires p < |s.orders|
    ensures ViewOf(s, p) == View(s.orders[p], DeliveryAt(s.deliveries, p), Rows(s.entries, p), Refunds(s.refundLog, p))
  {
  }

  lemma RowsAfterEffect(entries: seq<Entry>, o: OrderId, refundsNow: bool, driver: bool, booked: seq<Entry>, p: OrderId)
    requires forall i :: 0 <= i < |booked| ==> booked[i].order == Some(o)
    ensures Rows(InsertAll(Reversed(entries, o, refundsNow, driver), booked), p)
         == if p == o then InsertAll(Reversed(Rows(entries, p), o, refundsNow, driver), booked) else Rows(entries, p)
  {
    RowsAfterReversed(entries, o, refundsNow, driver, p);
    RowsAfterInsertAll(Reversed(entries, o, refundsNow, driver), booked, o, p);
  }

  function DeliveryAt(deliveries: seq<DeliveryRow>, o: OrderId): Option<DeliveryRow> {
    var d := LatestDelivery(deliveries, o);
    if d.Some? then Some(deliveries[d.value]) else None
  }

  lemma DeliveryAfterWrite(deliveries: seq<DeliveryRow>, o: OrderId, d: Option<DeliveryId>, row: Option<DeliveryRow>,
                           p: OrderId)
    requires d == LatestDelivery(deliveries, o)
    requires row.Some? ==> row.value.order == o
    requires d.Some? ==> row.Some?
    ensures DeliveryAt(WriteDelivery(deliveries, d, row), p) == if p == o then row else DeliveryAt(deliveries, p)
  {
    if row.Some? {
      if d.Some? { LatestAfterWrite(deliveries, d.value, row.value, p); }
      else { LatestAfterAppend(deliveries, row.value, p); }
    }
  }

  /** An effect keeps the links. */
  lemma ApplyKeepsLinked(s: State, o: OrderId, d: Option<DeliveryId>, eff: Effect)
    requires Linked(s) && Addressed(s, o, d)
    requires eff.delivery.Some? ==> eff.delivery.value.order == o
    requires d.Some? ==> eff.delivery.Some?
    requires forall i :: 0 <= i < |eff.booked| ==> eff.booked[i].order == Some(o)
    ensures Linked(Apply(s, o, d, eff))
  {
    WriteKeepsLinked(s.deliveries, o, d, eff.delivery, |s.orders|);
    var refundsNow := RefundsNow(s.orders[o], eff.order);
    ReversedKeepsLinked(s.entries, o, refundsNow, eff.reverseDriverPay, |s.orders|);
    InsertAllKeepsLinked(Reversed(s.entries, o, refundsNow, eff.reverseDriverPay), eff.booked, o, |s.orders|);
  }

  lemma WriteKeepsLinked(deliveries: seq<DeliveryRow>, o: OrderId, d: Option<DeliveryId>, row: Option<DeliveryRow>,
                         orders: nat)
    requires DeliveriesLinked(deliveries, orders) && o < orders
    requires d == LatestDelivery(deliveries, o) && (row.Some? ==> row.value.order == o)
    ensures DeliveriesLinked(WriteDelivery(deliveries, d, row), orders)
  {
  }

  lemma UpdateKeepsLinked(u: BulkUpdate, entries: seq<Entry>, orders: nat)
    requires EntriesLinked(entries, orders)
    ensures EntriesLinked(Update(u, entries), orders)
  {
    forall i | 0 <= i < |entries| ensures EntryLinked(Update(u, entries)[i], orders) {
      assert EntryLinked(entries[i], orders);
    }
  }

  lemma ReversedKeepsLinked(entries: seq<Entry>, o: OrderId, refundsNow: bool, driver: bool, orders: nat)
    requires EntriesLinked(entries, orders)
    ensures EntriesLinked(Reversed(entries, o, refundsNow, driver), orders)
  {
    var es := if driver then Update(Reverse(o, true), entries) else entries;
    UpdateKeepsLinked(Reverse(o, true), entries, orders);
    UpdateKeepsLinked(Reverse(o, false), es, orders);
  }

  lemma {:induction false} InsertAllKeepsLinked(entries: seq<Entry>, rows: seq<Entry>, o: OrderId, orders: nat)
    requires EntriesLinked(entries, orders) && o < orders
    requires forall i :: 0 <= i < |rows| ==> rows[i].order == Some(o)
    ensures EntriesLinked(InsertAll(entries, rows), orders)
  {
    if rows == [] {
    } else {
      InsertAllKeepsLinked(entries, rows[..|rows| - 1], o, orders);
    }
  }
}
