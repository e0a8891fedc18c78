/** The database the services share, and the wallet service on it. */
module Store {
  import opened Domain
  import opened Pricing
  import opened Ledger
  import opened Lifecycle
  import opened Marketplace
  import opened Views
  import opened Runs
  import opened Money
  import Entries

  /** The tables, Stripe's own records, and (ghost) the seller's supply and the requests between check and commit. */
  class Database {
    const tariff: Tariff
    const releaseWindow: nat
    var now: Time
    var orders: seq<Order>
    var deliveries: seq<DeliveryRow>
    var listings: Listings
    var entries: seq<Entry>
    var disputes: seq<Dispute>
    var refundLog: seq<OrderId>
    var transferLog: seq<TransferRecord>
    ghost var supplied: map<ListingId, int>
    ghost var cancelsInFlight: multiset<OrderId>
    ghost var failuresInFlight: multiset<FailureInFlight>

    constructor (tariff: Tariff, releaseWindow: nat, now: Time)
      ensures Snapshot() == InitialState(tariff, releaseWindow, now)
      ensures Valid()
    {
      this.tariff, this.releaseWindow, this.now := tariff, releaseWindow, now;
      orders, deliveries, listings, entries, disputes, refundLog, transferLog := [], [], map[], [], [], [], [];
      supplied, cancelsInFlight, failuresInFlight := map[], multiset{}, multiset{};
    }

    ghost function Snapshot(): State
      reads this
    {
      State(tariff, releaseWindow, now, orders, deliveries, listings, supplied, entries, disputes, cancelsInFlight,
            failuresInFlight, refundLog, transferLog)
    }

    ghost predicate Valid()
      reads this
    {
      Consistent(Snapshot())
    }

    /** From the old state to the current one the database took the step of `a` and answered `outcome`. */
    twostate predicate Answers(a: Action, outcome: Outcome)
      reads this
    {
      Reply(Snapshot(), outcome) == Handle(old(Snapshot()), a) && Valid()
    }
  }

  /** `deliveries where status = DELIVERED orderBy deliveredAt desc take 1`, read by `creditForCompletedOrder`. */
  function DeliveredRow(deliveries: seq<DeliveryRow>, o: OrderId): (r: Option<DeliveryRow>)
    ensures r.Some? ==> r.value in deliveries && r.value.order == o && r.value.status.Delivered?
    ensures r.None? ==> forall i :: 0 <= i < |deliveries| ==>
      deliveries[i].order != o || !deliveries[i].status.Delivered?
  {
    if deliveries == [] then None
    else
      var last := deliveries[|deliveries| - 1];
      var earlier := DeliveredRow(deliveries[..|deliveries| - 1], o);
      if last.order != o || !last.status.Delivered? then earlier
      else if earlier.Some? && earlier.value.deliveredAt.GetOr(0) > last.deliveredAt.GetOr(0) then earlier
      else Some(last)
  }

  /** With one delivery per order that row is the order's latest delivery, when delivered. */
  lemma DeliveredRowIsLatest(deliveries: seq<DeliveryRow>, orders: nat, o: OrderId)
    requires DeliveriesLinked(deliveries, orders)
    ensures DeliveredRow(deliveries, o) == Fulfilled(DeliveryAt(deliveries, o))
  {
    var r, l := DeliveredRow(deliveries, o), LatestDelivery(deliveries, o);
    if r.Some? {
      var i :| 0 <= i < |deliveries| && deliveries[i] == r.value;
      assert l.Some? && l.value == i;
    }
  }

  predicate Ascending(ids: seq<nat>) {
    forall i, j :: 0 <= i < j < |ids| ==> ids[i] < ids[j]
  }

  /** Row `id` belongs to an order whose status passes the test. */
  predicate Belongs(entries: seq<Entry>, orders: seq<Order>, id: nat, test: OrderStatus -> bool) {
    id < |entries| && OrderHas(orders, entries[id].order, test)
  }

  /** The guarded write of one row of an `updateMany` on PENDING rows. */
  function ToStatus(e: Entry, status: EntryStatus, releasedAt: Option<Time>): Entry {
    if !e.status.Pending? then e
    else e.(status := status, releasedAt := if releasedAt.Some? then releasedAt else e.releasedAt)
  }

  /** src/modules/wallets/wallets.service.ts */
  class WalletService {
    const db: Database

    constructor (db: Database)
      ensures this.db == db
    {
      this.db := db;
    }

    /** Credits a completed order's seller, platform and driver; a row already there is skipped. */
    method CreditForCompletedOrder(o: OrderId)
      modifies db`entries
      ensures db.entries == if o >= |db.orders| then old(db.entries)
                            else InsertAll(old(db.entries),
                                           CompletionRows(o, db.orders[o], DeliveredRow(db.deliveries, o), db.now,
                                                          db.releaseWindow))
    {
      if o >= |db.orders| { return; }
      var order := db.orders[o];
      var completed := order.status.Delivered? || order.status.Completed?;
      var disputed := order.status.Disputed?;
      if !completed && !disputed { return; }

      var delivered := DeliveredRow(db.deliveries, o);
      var deliveredAt := db.now;
      if delivered.Some? && delivered.value.deliveredAt.Some? { deliveredAt := delivered.value.deliveredAt.value; }
      var status := EntryStatus.Pending;
      var availableAt := Some(deliveredAt + db.releaseWindow);
      if disputed { status, availableAt := EntryStatus.Held, None; }

      var rows: seq<Entry> := [];
      var t := order.terms;
      if t.sellerEarningsCents > 0 {
        rows := rows + [Earning(t.seller, o, OrderEarning, t.sellerEarningsCents, status, availableAt, NoNote)];
      }
      if t.commissionCents > 0 {
        var row := Earning(Platform, o, Commission, t.commissionCents, EntryStatus.Available, Some(db.now), NoNote);
        rows := rows + [row];
      }
      if order.choice.Delivery? && delivered.Some? && delivered.value.driver.Some? && t.fulfillmentFeeCents > 0 {
        rows := rows + [Earning(delivered.value.driver.value, o, DeliveryEarning, t.fulfillmentFeeCents, status,
                                availableAt, NoNote)];
      }
      assert rows == CompletionRows(o, order, delivered, db.now, db.releaseWindow);
      db.entries := InsertAll(db.entries, rows);
    }

    method CompensateDriver(o: OrderId, driver: User, amountCents: int)
      modifies db`entries
      ensures db.entries == InsertAll(old(db.entries), CompensationRows(o, driver, amountCents, db.now))
    {
      if amountCents <= 0 { return; }
      var row := Earning(driver, o, DeliveryEarning, amountCents, EntryStatus.Available, Some(db.now),
                         SellerUnavailable);
      db.entries := InsertAll(db.entries, [row]);
    }

    method CreditSellerEarning(o: OrderId, seller: User, amountCents: int)
      modifies db`entries
      ensures db.entries == InsertAll(old(db.entries), SellerPay(o, seller, amountCents, db.now))
    {
      if amountCents <= 0 { return; }
      var row := Earning(seller, o, OrderEarning, amountCents, EntryStatus.Available, Some(db.now), DriverDisappeared);
      db.entries := InsertAll(db.entries, [row]);
    }

    method RecordDriverDebt(o: OrderId, driver: User, amountCents: int)
      modifies db`entries
      ensures db.entries == InsertAll(old(db.entries), DriverDebtRows(o, driver, amountCents, db.now))
    {
      if amountCents <= 0 { return; }
      var row := Earning(driver, o, DriverDebt, -amountCents, EntryStatus.Available, Some(db.now), Clawback);
      db.entries := InsertAll(db.entries, [row]);
    }

    /** The ids of the due rows, in table order. */
    method DueIds() returns (due: seq<nat>)
      ensures Ascending(due)
      ensures forall k: nat :: k in due <==> k < |db.entries| && Due(db.entries[k], db.now)
    {
      due := [];
      for i := 0 to |db.entries|
        invariant Ascending(due)
        invariant forall k: nat :: k in due <==> k < i && Due(db.entries[k], db.now)
      {
        if Due(db.entries[i], db.now) {
          assert forall j :: 0 <= j < |due| ==> due[j] in due;
          due := due + [i];
        }
      }
    }

    /** Sorts due ids into those to release and those to reverse, by their order's status. */
    method Triage(due: seq<nat>) returns (releasable: seq<nat>, reversible: seq<nat>)
      requires Ascending(due) && forall k :: k in due ==> k < |db.entries|
      ensures Ascending(releasable)
      ensures forall k: nat :: k in releasable <==> k in due && Belongs(db.entries, db.orders, k, Payable)
      ensures forall k: nat :: k in reversible <==> k in due && !Belongs(db.entries, db.orders, k, Payable)
                                                    && Belongs(db.entries, db.orders, k, Voided)
    {
      releasable, reversible := [], [];
      for j := 0 to |due|
        invariant Ascending(releasable) && forall k :: k in releasable ==> k in due[..j]
        invariant forall k: nat :: k in releasable <==> k in due[..j] && Belongs(db.entries, db.orders, k, Payable)
        invariant forall k: nat :: k in reversible <==> k in due[..j] && !Belongs(db.entries, db.orders, k, Payable)
                                                        && Belongs(db.entries, db.orders, k, Voided)
      {
        var id := due[j];
        assert id in due && due[..j + 1] == due[..j] + [id];
        var entry := db.entries[id];
        if entry.order.Some? && entry.order.value < |db.orders| {
          var status := db.orders[entry.order.value].status;
          if status.Delivered? || status.Completed? {
            assert forall i :: 0 <= i < |releasable| ==> releasable[i] in releasable;
            releasable := releasable + [id];
          } else if status.Cancelled? || status.Refunded? {
            reversible := reversible + [id];
          }
        }
      }
      assert due[..|due|] == due;
    }

    /** The batch sweep: collects the due rows, sorts their ids, then updates both batches. It is the per-entry
        release of every row, and it counts the released ones. */
    method ReleaseDuePendingEntries() returns (released: nat)
      requires db.Valid()
      modifies db`entries
      ensures db.Snapshot() == Step(old(db.Snapshot()), Sweep) && db.Valid()
      ensures released == |Entries.Releasable(old(db.Snapshot()))|
    {
      StepKeepsConsistent(db.Snapshot(), Sweep);
      var due := DueIds();
      var releasable, reversible := Triage(due);
      var entries := db.entries;
      if |releasable| > 0 { UpdatePending(releasable, EntryStatus.Available, Some(db.now)); }
      ghost var half := db.entries;
      if |reversible| > 0 { UpdatePending(reversible, EntryStatus.Cancelled, None); }
      released := |releasable|;
      forall i | 0 <= i < |entries| ensures db.entries[i] == Update(Release(db.now, db.orders), entries)[i] {
        assert half[i]
            == if i in releasable then ToStatus(entries[i], EntryStatus.Available, Some(db.now)) else entries[i];
      }
      assert db.entries == Update(Release(db.now, db.orders), entries);
      assert Entries.Releasable(old(db.Snapshot())) == Members(releasable);
      DistinctCount(releasable);
    }

    /** `updateMany({ where: { id in ids, status: PENDING } })` */
    method UpdatePending(ids: seq<nat>, status: EntryStatus, releasedAt: Option<Time>)
      modifies db`entries
      ensures |db.entries| == |old(db.entries)|
      ensures forall i :: 0 <= i < |db.entries| ==>
        db.entries[i] == if i in ids then ToStatus(old(db.entries)[i], status, releasedAt) else old(db.entries)[i]
    {
      var entries := db.entries;
      db.entries := seq(|entries|, i requires 0 <= i < |entries| =>
        if i in ids then ToStatus(entries[i], status, releasedAt) else entries[i]);
    }

    /** The balances shown to the user. */
    method GetSummary(user: User) returns (summary: Summary)
      ensures summary == SummaryOf(db.entries, user)
    {
      var availableRaw := Sum(db.entries, InStatus(user, EntryStatus.Available));
      var pending := Sum(db.entries, InStatus(user, EntryStatus.Pending));
      var onHold := Sum(db.entries, InStatus(user, EntryStatus.Held));
      var paidOut := Sum(db.entries, InStatus(user, EntryStatus.PaidOut));
      var available := if availableRaw > 0 then availableRaw else 0;
      var debt := if availableRaw < 0 then -availableRaw else 0;
      var history := GetHistory(user);
      summary := Summary(available, pending, onHold, paidOut, debt, availableRaw + pending + onHold,
                         WITHDRAWAL_MIN_CENTS, debt == 0 && available >= WITHDRAWAL_MIN_CENTS, history);
    }

    /** `orderBy createdAt desc take 50` */
    method GetHistory(user: User) returns (history: seq<Entry>)
      ensures history == Newest(db.entries, user, HISTORY)
    {
      history := [];
      assert db.entries[..|db.entries|] == db.entries;
      var i := |db.entries|;
      while i > 0 && |history| < HISTORY
        invariant 0 <= i <= |db.entries| && |history| <= HISTORY
        invariant history + Newest(db.entries[..i], user, HISTORY - |history|) == Newest(db.entries, user, HISTORY)
      {
        i := i - 1;
        NewestStep(db.entries, i, user, HISTORY - |history|, history);
        if db.entries[i].user == user { history := history + [db.entries[i]]; }
      }
    }

    /** Withdraws the whole available balance: one Stripe transfer, then the settled rows and their debit. */
    method RequestWithdrawal(user: User, payoutReady: bool, transferred: bool) returns (outcome: Outcome)
      requires db.Valid()
      modifies db`entries, db`transferLog
      ensures db.Answers(Withdraw(user, payoutReady, transferred), outcome)
    {
      ghost var before := db.Snapshot();
      StepKeepsConsistent(before, Withdraw(user, payoutReady, transferred));
      if user.Platform? { return Outcome.Failed(NotFound); }
      var entries := db.entries;
      var total := 0;
      for i := 0 to |entries|
        invariant total == Sum(entries[..i], InStatus(user, EntryStatus.Available))
      {
        if entries[i].user == user && entries[i].status.Available? { total := total + entries[i].amountCents; }
        assert entries[..i + 1][..i] == entries[..i];
      }
      assert entries[..|entries|] == entries;
      if total < 0 { return Outcome.Failed(BadRequest); }
      if total < WITHDRAWAL_MIN_CENTS { return Outcome.Failed(BadRequest); }
      if !payoutReady { return Outcome.Failed(Forbidden); }
      var withdrawal := |db.transferLog|;
      if !transferred { return Outcome.Failed(BadRequest); }
      db.transferLog := db.transferLog + [TransferRecord(user, total)];
      db.entries := Update(Settle(user, withdrawal), db.entries) + [WithdrawalRow(user, withdrawal, total)];
      outcome := Done;
    }
  }

  lemma NewestStep(entries: seq<Entry>, i: nat, u: User, limit: nat, history: seq<Entry>)
    requires i < |entries| && limit > 0
    ensures history + Newest(entries[..i + 1], u, limit)
         == if entries[i].user == u then history + [entries[i]] + Newest(entries[..i], u, limit - 1)
            else history + Newest(entries[..i], u, limit)
  {
    assert entries[..i + 1][..i] == entries[..i];
    if entries[i].user == u {
      var rest := Newest(entries[..i], u, limit - 1);
      assert history + ([entries[i]] + rest) == history + [entries[i]] + rest;
    }
  }

  function Members(ids: seq<nat>): set<nat> {
    set k | k in ids
  }

  lemma {:induction false} DistinctCount(ids: seq<nat>)
    requires Ascending(ids)
    ensures |Members(ids)| == |ids|
  {
    if ids == [] {
    } else {
      var n := |ids| - 1;
      DistinctCount(ids[..n]);
      LastMember(ids);
    }
  }

  lemma LastMember(ids: seq<nat>)
    requires ids != [] && Ascending(ids)
    ensures var n := |ids| - 1;
      Members(ids) == Members(ids[..n]) + {ids[n]} && ids[n] !in Members(ids[..n])
  {
    var n := |ids| - 1;
    assert ids == ids[..n] + [ids[n]];
  }
}
