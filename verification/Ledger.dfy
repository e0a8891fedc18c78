/** The wallet ledger as a table: insert-if-absent, bulk status updates and sums. */
module Ledger {
  import opened Domain

  // ---- `createMany({ skipDuplicates: true })` on the unique (order, user, kind) ----

  /** Two rows collide only when both belong to an order: a null order id never collides. */
  predicate Collides(a: Entry, b: Entry) {
    a.order.Some? && a.order == b.order && a.user == b.user && a.kind == b.kind
  }

  predicate Present(entries: seq<Entry>, row: Entry) {
    exists i :: 0 <= i < |entries| && Collides(entries[i], row)
  }

  function Insert(entries: seq<Entry>, row: Entry): seq<Entry> {
    if Present(entries, row) then entries else entries + [row]
  }

  function InsertAll(entries: seq<Entry>, rows: seq<Entry>): seq<Entry> {
    if rows == [] then entries
    else Insert(InsertAll(entries, rows[..|rows| - 1]), rows[|rows| - 1])
  }

  // ---- `updateMany` ----

  /** The bulk updates of the source: reversing an order's PENDING rows (all, or the delivery earning only),
      the release sweep, and the settlement of a withdrawal. */
  datatype BulkUpdate =
    | Reverse(order: OrderId, deliveryOnly: bool)
    | Release(now: Time, orders: seq<Order>)
    | Settle(user: User, withdrawal: nat)

  predicate Due(e: Entry, now: Time) {
    e.status.Pending? && (e.kind.OrderEarning? || e.kind.DeliveryEarning?)
    && e.availableAt.Some? && e.availableAt.value <= now
  }

  predicate Payable(status: OrderStatus) { status.Delivered? || status.Completed? }

  predicate Voided(status: OrderStatus) { status.Cancelled? || status.Refunded? }

  predicate OrderHas(orders: seq<Order>, o: Option<OrderId>, test: OrderStatus -> bool) {
    o.Some? && o.value < |orders| && test(orders[o.value].status)
  }

  function UpdateOne(u: BulkUpdate, e: Entry): Entry {
    match u
    case Reverse(o, deliveryOnly) =>
      if e.status.Pending? && e.order == Some(o) && (deliveryOnly ==> e.kind.DeliveryEarning?)
      then e.(status := EntryStatus.Cancelled) else e
    case Release(now, orders) =>
      if !Due(e, now) then e
      else if OrderHas(orders, e.order, Payable) then e.(status := EntryStatus.Available, releasedAt := Some(now))
      else if OrderHas(orders, e.order, Voided) then e.(status := EntryStatus.Cancelled)
      else e
    case Settle(user, w) =>
      if e.user == user && e.status.Available?
      then e.(status := EntryStatus.PaidOut, withdrawal := Some(w)) else e
  }

  function Update(u: BulkUpdate, entries: seq<Entry>): (r: seq<Entry>)
    ensures |r| == |entries|
  {
    seq(|entries|, i requires 0 <= i < |entries| => UpdateOne(u, entries[i]))
  }

  lemma UpdateAppends(u: BulkUpdate, entries: seq<Entry>, row: Entry)
    ensures Update(u, entries + [row]) == Update(u, entries) + [UpdateOne(u, row)]
  {
  }

  // ---- The rows of one order ----

  function Rows(entries: seq<Entry>, o: OrderId): (r: seq<Entry>)
    ensures forall i :: 0 <= i < |r| ==> r[i].order == Some(o) && r[i] in entries
    ensures forall i :: 0 <= i < |entries| && entries[i].order == Some(o) ==> entries[i] in r
  {
    if entries == [] then []
    else
      var last := entries[|entries| - 1];
      Rows(entries[..|entries| - 1], o) + if last.order == Some(o) then [last] else []
  }

  lemma RowsAppend(entries: seq<Entry>, row: Entry, o: OrderId)
    ensures Rows(entries + [row], o) == Rows(entries, o) + if row.order == Some(o) then [row] else []
  {
    assert (entries + [row])[..|entries|] == entries;
  }

  lemma {:induction false} RowsAfterUpdate(u: BulkUpdate, entries: seq<Entry>, o: OrderId)
    ensures Rows(Update(u, entries), o) == Update(u, Rows(entries, o))
  {
    if entries == [] {
    } else {
      var n := |entries| - 1;
      RowsAfterUpdate(u, entries[..n], o);
      assert Update(u, entries)[..n] == Update(u, entries[..n]);
      if entries[n].order == Some(o) { UpdateAppends(u, Rows(entries[..n], o), entries[n]); }
    }
  }

  /** Inserting rows of order `o` only looks at, and only adds to, the rows of `o`. */
  lemma {:induction false} RowsAfterInsertAll(entries: seq<Entry>, rows: seq<Entry>, o: OrderId, p: OrderId)
    requires forall i :: 0 <= i < |rows| ==> rows[i].order == Some(o)
    ensures Rows(InsertAll(entries, rows), p) == if p == o then InsertAll(Rows(entries, p), rows) else Rows(entries, p)
  {
    if rows == [] {
    } else {
      var n := |rows| - 1;
      RowsAfterInsertAll(entries, rows[..n], o, p);
      var es := InsertAll(entries, rows[..n]);
      RowsPresence(es, rows[n], o);
      RowsAppend(es, rows[n], p);
    }
  }

  lemma RowsPresence(entries: seq<Entry>, row: Entry, o: OrderId)
    requires row.order == Some(o)
    ensures Present(entries, row) <==> Present(Rows(entries, o), row)
  {
    if Present(entries, row) {
      var i :| 0 <= i < |entries| && Collides(entries[i], row);
      assert entries[i] in Rows(entries, o);
    }
  }

  /** Rows that collide neither with the table nor with each other are all inserted, in order. */
  lemma {:induction false} InsertAllFresh(entries: seq<Entry>, rows: seq<Entry>)
    requires forall i, j :: 0 <= i < |entries| && 0 <= j < |rows| ==> !Collides(entries[i], rows[j])
    requires forall i, j :: 0 <= i < j < |rows| ==> !Collides(rows[i], rows[j])
    ensures InsertAll(entries, rows) == entries + rows
  {
    if rows == [] {
    } else {
      var n := |rows| - 1;
      InsertAllFresh(entries, rows[..n]);
      var es := entries + rows[..n];
      forall i | 0 <= i < |es| ensures !Collides(es[i], rows[n]) {
        if i >= |entries| { assert es[i] == rows[i - |entries|]; }
      }
      assert entries + rows == es + [rows[n]];
    }
  }

  lemma {:induction false} InsertAllAddsOnly(entries: seq<Entry>, rows: seq<Entry>)
    ensures var r := InsertAll(entries, rows);
      && |entries| <= |r| && r[..|entries|] == entries
      && forall i :: |entries| <= i < |r| ==> r[i] in rows
  {
    if rows == [] {
    } else {
      InsertAllAddsOnly(entries, rows[..|rows| - 1]);
    }
  }

  // ---- Sums ----

  datatype Selection =
    | InStatus(user: User, status: EntryStatus)
    | Credits(user: User)
    | Payouts(user: User)
    | OfWithdrawal(withdrawal: nat)

  /** Credits are all rows that still count for their owner, debts included, withdrawals excluded. */
  predicate Selects(q: Selection, e: Entry) {
    match q
    case InStatus(u, st) => e.user == u && e.status == st
    case Credits(u) => e.user == u && !e.status.Cancelled? && !e.kind.Withdrawal?
    case Payouts(u) => e.user == u && e.kind.Withdrawal?
    case OfWithdrawal(w) => e.withdrawal == Some(w)
  }

  function Sum(entries: seq<Entry>, q: Selection): int {
    if entries == [] then 0
    else
      var last := entries[|entries| - 1];
      Sum(entries[..|entries| - 1], q) + if Selects(q, last) then last.amountCents else 0
  }

  lemma SumAppend(entries: seq<Entry>, row: Entry, q: Selection)
    ensures Sum(entries + [row], q) == Sum(entries, q) + if Selects(q, row) then row.amountCents else 0
  {
    assert (entries + [row])[..|entries|] == entries;
  }

  /** Tables that agree on what a selection sees have the same sum. */
  lemma {:induction false} SumDependsOnSelected(a: seq<Entry>, b: seq<Entry>, q: Selection)
    requires |a| == |b|
    requires forall i :: 0 <= i < |a| ==> (Selects(q, a[i]) <==> Selects(q, b[i]))
    requires forall i :: 0 <= i < |a| && Selects(q, a[i]) ==> a[i].amountCents == b[i].amountCents
    ensures Sum(a, q) == Sum(b, q)
  {
    if a == [] {
    } else {
      var n := |a| - 1;
      SumDependsOnSelected(a[..n], b[..n], q);
    }
  }

  lemma {:induction false} SumOfNothing(entries: seq<Entry>, q: Selection)
    requires forall i :: 0 <= i < |entries| ==> !Selects(q, entries[i])
    ensures Sum(entries, q) == 0
  {
    if entries == [] {
    } else {
      SumOfNothing(entries[..|entries| - 1], q);
    }
  }

  /** The positive amounts among some rows. */
  function PositiveTotal(rows: seq<Entry>): nat {
    if rows == [] then 0
    else
      var last := rows[|rows| - 1];
      PositiveTotal(rows[..|rows| - 1]) + if last.amountCents > 0 then last.amountCents else 0
  }
}
