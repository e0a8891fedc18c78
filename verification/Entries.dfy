/** The life of one wallet entry, the safety window, and the release sweep as a per-entry function. */
module Entries {
  import opened Domain
  import opened Ledger
  import opened Lifecycle
  import opened Marketplace
  import opened Consistency
  import opened Views
  import opened Runs
  import opened Finality
  import opened Money
  import OrderMoney

  // ---- One entry over a run ----

  lemma SettleMoves(s: State, user: User, payoutReady: bool, transferred: bool)
    ensures var es := Payout(s, user, payoutReady, transferred).state.entries;
      |s.entries| <= |es| && forall i :: 0 <= i < |s.entries| ==> Moves(s.entries[i], es[i], s.now)
  {
  }

  lemma EntriesMove(s: State, a: Action)
    ensures var es := Step(s, a).entries;
      |s.entries| <= |es| && forall i :: 0 <= i < |s.entries| ==> Moves(s.entries[i], es[i], s.now)
  {
    if a.Withdraw? { SettleMoves(s, a.user, a.payoutReady, a.transferred); } else { StepsAreQuiet(s, a); }
  }

  lemma {:induction false} EntriesRemain(s: State, actions: seq<Action>)
    ensures |s.entries| <= |Run(s, actions).entries|
  {
    if actions == [] {
    } else {
      EntriesRemain(s, actions[..|actions| - 1]);
      EntriesMove(Run(s, actions[..|actions| - 1]), actions[|actions| - 1]);
    }
  }

  /** How often the status of entry `i` changes along a run. */
  function StatusChanges(s: State, actions: seq<Action>, i: nat): nat
    requires i < |s.entries|
  {
    if actions == [] then 0
    else
      var n := |actions| - 1;
      var t := Run(s, actions[..n]);
      EntriesRemain(s, actions[..n]);
      EntriesMove(t, actions[n]);
      StatusChanges(s, actions[..n], i)
      + if Step(t, actions[n]).entries[i].status != t.entries[i].status then 1 else 0
  }

  /** In every run an entry keeps its amount, owner, order and kind; every status change spends budget, so there are
      at most two, and a PAID_OUT or CANCELLED entry never changes again. */
  lemma {:induction false} EntryLife(s: State, actions: seq<Action>, i: nat)
    requires i < |s.entries|
    ensures i < |Run(s, actions).entries|
    ensures SameEntry(s.entries[i], Run(s, actions).entries[i])
    ensures StatusChanges(s, actions, i) + Budget(Run(s, actions).entries[i].status) <= Budget(s.entries[i].status) <= 2
  {
    if actions == [] {
    } else {
      var n := |actions| - 1;
      EntryLife(s, actions[..n], i);
      EntriesMove(Run(s, actions[..n]), actions[n]);
    }
  }

  /** What a refund reverses stays reversed: in every run without a lost cancel race or a scan on a refunded and voided
      order, a refunded order has no PENDING row, and no step makes a row of it AVAILABLE that was not so before. */
  lemma RefundedReleasesNothing(s: State, actions: seq<Action>, a: Action, o: OrderId)
    requires Consistent(s) && OrderMoney.RefundQuiet(s, o) && OrderMoney.NoLateMove(s, actions, o)
    requires var t := Run(s, actions); o < |t.orders| && t.orders[o].refund.Some?
    ensures var t := Run(s, actions);
      forall i :: 0 <= i < |t.entries| && t.entries[i].order == Some(o) ==> !t.entries[i].status.Pending?
    ensures var t := Run(s, actions);
      && |t.entries| <= |Step(t, a).entries|
      && forall i :: 0 <= i < |t.entries| && t.entries[i].order == Some(o)
                     && Step(t, a).entries[i].status.Available? ==>
           t.entries[i].status.Available?
  {
    OrderMoney.RefundedEarnsNothing(s, actions, o);
    var t := Run(s, actions);
    forall i | 0 <= i < |t.entries| && t.entries[i].order == Some(o) ensures !t.entries[i].status.Pending? {
      assert t.entries[i] in Rows(t.entries, o);
    }
    EntriesMove(t, a);
  }

  // ---- The safety window ----

  /** An earning booked by a completed order (not a compensation or a settlement). */
  predicate EarnedByCompletion(e: Entry) {
    e.note.NoNote? && (e.kind.OrderEarning? || e.kind.DeliveryEarning?)
  }

  predicate Waits(e: Entry, since: Time, window: nat) {
    EarnedByCompletion(e) ==> e.availableAt.Some? && since + window <= e.availableAt.value
  }

  predicate AllWait(rows: seq<Entry>, since: Time, window: nat) {
    forall i :: 0 <= i < |rows| ==> Waits(rows[i], since, window)
  }

  lemma CompletionRowsWait(o: OrderId, order: Order, delivered: Option<DeliveryRow>, now: Time, window: nat)
    requires order.status.Delivered?
    requires delivered.Some? && delivered.value.deliveredAt.Some? ==> delivered.value.deliveredAt.value == now
    ensures AllWait(CompletionRows(o, order, delivered, now, window), now, window)
  {
  }

  lemma BookedEarningsWait(e: Event, v: View, o: OrderId, now: Time, window: nat)
    requires Legal(v.order, v.delivery, o) && (ForDelivery(e) ==> v.delivery.Some?)
    ensures var eff := EffectOf(e, v, o, now, window); eff.Some? ==> AllWait(eff.value.booked, now, window)
  {
    var eff := EffectOf(e, v, o, now, window);
    if eff.Some? {
      if e.ConfirmPickup? || e.DeliverByScan? || e.DeliverAbsent? {
        CompletionRowsWait(o, eff.value.order, Fulfilled(eff.value.delivery), now, window);
      } else {
        NoEarningBooked(e, v, o, now, window);
      }
    }
  }

  lemma NoEarningBooked(e: Event, v: View, o: OrderId, now: Time, window: nat)
    requires ForDelivery(e) ==> v.delivery.Some?
    requires !e.ConfirmPickup? && !e.DeliverByScan? && !e.DeliverAbsent?
    ensures var eff := EffectOf(e, v, o, now, window);
      eff.Some? ==> forall i :: 0 <= i < |eff.value.booked| ==> !EarnedByCompletion(eff.value.booked[i])
  {
  }

  lemma InsertedWait(entries: seq<Entry>, rows: seq<Entry>, now: Time, window: nat)
    requires AllWait(rows, now, window)
    ensures forall i :: |entries| <= i < |InsertAll(entries, rows)| ==> Waits(InsertAll(entries, rows)[i], now, window)
  {
    InsertAllAddsOnly(entries, rows);
  }

  lemma HandlerEarningsWait(s: State, o: OrderId, d: Option<DeliveryId>, e: Event)
    requires Called(s, o, d, e) && Good(ViewOf(s, o), o, s.tariff, s.now, s.releaseWindow)
    ensures var es := Perform(s, o, d, e).state.entries;
      forall i :: |s.entries| <= i < |es| ==> Waits(es[i], s.now, s.releaseWindow)
  {
    var v := ViewOf(s, o);
    assert LocalAt(s, o, d) == LocalOf(v, e);
    BookedEarningsWait(e, v, o, s.now, s.releaseWindow);
    var eff := EffectOf(e, v, o, s.now, s.releaseWindow);
    if eff.Some? {
      InsertedWait(Reversed(s.entries, o, RefundsNow(s.orders[o], eff.value.order), eff.value.reverseDriverPay),
                   eff.value.booked, s.now, s.releaseWindow);
    }
  }

  lemma NewEarningsWait(s: State, a: Action)
    requires Consistent(s)
    ensures var es := Step(s, a).entries;
      forall i :: |s.entries| <= i < |es| ==> Waits(es[i], s.now, s.releaseWindow)
  {
    var c := CallOf(s, a);
    if c.Some? {
      var before := c.value.before;
      StepRunsItsCall(s, a);
      CallIsCalled(s, a);
      SameViews(s, before);
      assert Good(ViewOf(s, c.value.order), c.value.order, s.tariff, s.now, s.releaseWindow);
      HandlerEarningsWait(before, c.value.order, c.value.delivery, c.value.event);
    } else {
      StepWithoutCall(s, a);
      if a.Withdraw? { PayoutsAreNoEarnings(s, a.user, a.payoutReady, a.transferred); }
      if a.Sweep? { SweepIsQuiet(s); }
    }
  }

  lemma PayoutsAreNoEarnings(s: State, user: User, payoutReady: bool, transferred: bool)
    ensures var es := Payout(s, user, payoutReady, transferred).state.entries;
      forall i :: |s.entries| <= i < |es| ==> !EarnedByCompletion(es[i])
  {
  }

  lemma {:induction false} TimeMovesOn(s: State, actions: seq<Action>)
    requires Consistent(s)
    ensures s.now <= Run(s, actions).now && Run(s, actions).releaseWindow == s.releaseWindow
  {
    if actions == [] {
    } else {
      var n := |actions| - 1;
      TimeMovesOn(s, actions[..n]);
      EveryRunIsConsistent(s, actions[..n]);
      StepIsLocal(Run(s, actions[..n]), actions[n]);
    }
  }

  lemma {:induction false} LaterEarningsWait(s: State, actions: seq<Action>)
    requires Consistent(s)
    ensures var s' := Run(s, actions);
      forall i :: |s.entries| <= i < |s'.entries| ==> Waits(s'.entries[i], s.now, s.releaseWindow)
  {
    if actions == [] {
    } else {
      var n := |actions| - 1;
      LaterEarningsWait(s, actions[..n]);
      EveryRunIsConsistent(s, actions[..n]);
      TimeMovesOn(s, actions[..n]);
      EntriesMove(Run(s, actions[..n]), actions[n]);
      NewEarningsWait(Run(s, actions[..n]), actions[n]);
    }
  }

  lemma RowIsOk(s: State, i: nat)
    requires Consistent(s) && i < |s.entries| && s.entries[i].order.Some?
    ensures var o := s.entries[i].order.value;
      o < |s.orders| && RowOk(s.entries[i], LatestRow(s, o), s.now, s.releaseWindow)
  {
    var e := s.entries[i];
    assert EntryLinked(e, |s.orders|);
    var o := e.order.value;
    assert Good(ViewOf(s, o), o, s.tariff, s.now, s.releaseWindow);
    var k :| 0 <= k < |Rows(s.entries, o)| && Rows(s.entries, o)[k] == e;
    assert RowOk(Rows(s.entries, o)[k], LatestRow(s, o), s.now, s.releaseWindow);
  }

  lemma EarningsOfConsistent(s: State, i: nat)
    requires Consistent(s) && i < |s.entries| && EarnedByCompletion(s.entries[i])
    ensures var e := s.entries[i];
      e.availableAt.Some? && !e.status.Held?
      && (e.status.Available? || e.status.PaidOut? ==> e.availableAt.value <= s.now)
  {
    assert EntryLinked(s.entries[i], |s.orders|);
    RowIsOk(s, i);
  }

  /** An earning that a completed order books after some moment is not withdrawable before that moment plus the
      release window, in any run. */
  lemma SafetyWindow(s: State, actions: seq<Action>, i: nat)
    requires Consistent(s) && |s.entries| <= i < |Run(s, actions).entries|
    requires EarnedByCompletion(Run(s, actions).entries[i])
    ensures var s' := Run(s, actions);
      (s'.entries[i].status.Available? || s'.entries[i].status.PaidOut?) ==> s.now + s.releaseWindow <= s'.now
  {
    LaterEarningsWait(s, actions);
    EveryRunIsConsistent(s, actions);
    EarningsOfConsistent(Run(s, actions), i);
  }

  /** For a delivered order the window starts at delivery, for every row in every reachable state. */
  lemma WindowStartsAtDelivery(s: State, i: nat)
    requires Reachable(s) && i < |s.entries| && s.entries[i].order.Some? && EarnedByCompletion(s.entries[i])
    ensures var e := s.entries[i];
      && e.order.value < |s.orders|
      && var d := LatestRow(s, e.order.value);
         d.Some? && d.value.deliveredAt.Some? && (e.status.Available? || e.status.PaidOut?) ==>
           d.value.deliveredAt.value + s.releaseWindow <= s.now
  {
    ReachableIsConsistent(s);
    RowIsOk(s, i);
  }

  lemma NothingIsHeld(s: State, i: nat)
    requires Reachable(s) && i < |s.entries|
    ensures !s.entries[i].status.Held?
  {
    ReachableIsConsistent(s);
    assert EntryLinked(s.entries[i], |s.orders|);
    if s.entries[i].order.Some? {
      RowIsOk(s, i);
    } else {
      var tariff, window, start, actions :| s == Run(InitialState(tariff, window, start), actions);
      EveryRunIsBalanced(InitialState(tariff, window, start), actions);
      assert RowSettles(s.entries[i], |s.transferLog|);
    }
  }

  // ---- The sweep ----

  /** Equal up to the moment of release. */
  predicate SameButRelease(a: Entry, b: Entry) {
    a == b.(releasedAt := a.releasedAt)
  }

  /** Sweeping twice at one moment is sweeping once, and sweeping at `t1` then at `t2` is sweeping at `t2`, up to the
      release times, as long as the orders keep their statuses. */
  lemma SweepsCompose(entries: seq<Entry>, orders: seq<Order>, t1: Time, t2: Time)
    requires t1 <= t2
    ensures Update(Release(t1, orders), Update(Release(t1, orders), entries)) == Update(Release(t1, orders), entries)
    ensures var twice := Update(Release(t2, orders), Update(Release(t1, orders), entries));
      var once := Update(Release(t2, orders), entries);
      forall i :: 0 <= i < |entries| ==> SameButRelease(twice[i], once[i])
  {
    var swept := Update(Release(t1, orders), entries);
    forall i | 0 <= i < |entries| ensures Update(Release(t1, orders), swept)[i] == swept[i] {
      assert swept[i] == UpdateOne(Release(t1, orders), entries[i]);
    }
  }

  // ---- What one sweep does to the table ----

  /** A PENDING earning of an existing order whose time has come. */
  predicate TimeHasCome(s: State, e: Entry) {
    && e.status.Pending? && (e.kind.OrderEarning? || e.kind.DeliveryEarning?)
    && e.availableAt.Some? && e.availableAt.value <= s.now
    && e.order.Some? && e.order.value < |s.orders|
  }

  predicate ToRelease(s: State, e: Entry) {
    TimeHasCome(s, e) && (s.orders[e.order.value].status.Delivered? || s.orders[e.order.value].status.Completed?)
  }

  predicate ToReverse(s: State, e: Entry) {
    TimeHasCome(s, e) && (s.orders[e.order.value].status.Cancelled? || s.orders[e.order.value].status.Refunded?)
  }

  /** A sweep makes the due earnings of delivered orders AVAILABLE as of now, cancels those of cancelled and refunded
      ones, and leaves every other row, and everything but the ledger, as it is. */
  lemma SweepReleasesExactly(s: State)
    ensures var s' := Step(s, Sweep);
      && s' == s.(entries := s'.entries) && |s'.entries| == |s.entries|
      && forall i :: 0 <= i < |s.entries| ==>
           s'.entries[i]
           == if ToRelease(s, s.entries[i])
              then s.entries[i].(status := EntryStatus.Available, releasedAt := Some(s.now))
              else if ToReverse(s, s.entries[i]) then s.entries[i].(status := EntryStatus.Cancelled)
              else s.entries[i]
  {
  }

  /** The ids of the rows a sweep releases. */
  function Releasable(s: State): set<nat> {
    set i: nat | i < |s.entries| && ToRelease(s, s.entries[i])
  }

  /** What the first `n` rows hold for the user that a sweep releases. */
  function ReleasedTo(s: State, u: User, n: nat): int
    requires n <= |s.entries|
  {
    if n == 0 then 0
    else
      var e := s.entries[n - 1];
      ReleasedTo(s, u, n - 1) + if e.user == u && ToRelease(s, e) then e.amountCents else 0
  }

  lemma ReleasedRow(s: State, u: User, i: nat)
    requires i < |s.entries|
    ensures var e, e' := s.entries[i], UpdateOne(Release(s.now, s.orders), s.entries[i]);
      var q := InStatus(u, EntryStatus.Available);
      && e'.amountCents == e.amountCents
      && (Selects(q, e') <==> Selects(q, e) || (e.user == u && ToRelease(s, e)))
      && !(Selects(q, e) && ToRelease(s, e))
  {
  }

  lemma {:induction false} ReleasedSum(s: State, u: User, n: nat)
    requires n <= |s.entries|
    ensures Sum(Update(Release(s.now, s.orders), s.entries)[..n], InStatus(u, EntryStatus.Available))
         == Sum(s.entries[..n], InStatus(u, EntryStatus.Available)) + ReleasedTo(s, u, n)
  {
    if n == 0 {
    } else {
      var swept, q := Update(Release(s.now, s.orders), s.entries), InStatus(u, EntryStatus.Available);
      ReleasedSum(s, u, n - 1);
      SumAppend(s.entries[..n - 1], s.entries[n - 1], q);
      SumAppend(swept[..n - 1], swept[n - 1], q);
      assert s.entries[..n] == s.entries[..n - 1] + [s.entries[n - 1]];
      assert swept[..n] == swept[..n - 1] + [swept[n - 1]];
      ReleasedRow(s, u, n - 1);
    }
  }

  /** So a sweep raises a user's available balance by exactly the due earnings of delivered orders. */
  lemma SweepRaisesTheBalance(s: State, u: User)
    ensures Sum(Step(s, Sweep).entries, InStatus(u, EntryStatus.Available))
         == Sum(s.entries, InStatus(u, EntryStatus.Available)) + ReleasedTo(s, u, |s.entries|)
  {
    ReleasedSum(s, u, |s.entries|);
    var swept := Update(Release(s.now, s.orders), s.entries);
    assert s.entries[..|s.entries|] == s.entries && swept[..|s.entries|] == swept;
  }

  // ---- What the app shows ----

  /** The balances of the summary in a reachable state: never both money and debt, nothing held, and what is offered
      for withdrawal is what would be transferred. */
  lemma SummaryIsExact(s: State, id: nat)
    requires Reachable(s)
    ensures var m := SummaryOf(s.entries, Person(id));
      && m.availableCents - m.debtCents == Sum(s.entries, InStatus(Person(id), EntryStatus.Available))
      && m.availableCents >= 0 && m.debtCents >= 0 && (m.availableCents == 0 || m.debtCents == 0)
      && m.pendingCents == Sum(s.entries, InStatus(Person(id), EntryStatus.Pending))
      && m.heldCents == 0 && m.paidOutCents == 0
      && m.totalBalanceCents == m.availableCents - m.debtCents + m.pendingCents
      && (m.canWithdraw <==> m.availableCents >= 5_000)
      && (m.canWithdraw ==> Step(s, Withdraw(Person(id), true, true)).transferLog
                            == s.transferLog + [TransferRecord(Person(id), m.availableCents)])
  {
    CanWithdrawIsExact(s, id);
    NobodyHolds(s, Person(id));
    WithdrawsExactlyWhen(s, Person(id), true, true);
  }

  function RowsOf(entries: seq<Entry>, u: User): nat {
    if entries == [] then 0
    else RowsOf(entries[..|entries| - 1], u) + if entries[|entries| - 1].user == u then 1 else 0
  }

  /** The history: a new row of the user comes first, one of somebody else changes nothing, and no row is missing
      until there are as many as the app asks for. */
  lemma {:induction false} HistoryIsTheLatest(entries: seq<Entry>, u: User, limit: nat)
    ensures |Newest(entries, u, limit)| == if RowsOf(entries, u) < limit then RowsOf(entries, u) else limit
    ensures forall row: Entry ::
      Newest(entries + [row], u, limit + 1)
      == if row.user == u then [row] + Newest(entries, u, limit) else Newest(entries, u, limit + 1)
  {
    forall row: Entry
      ensures Newest(entries + [row], u, limit + 1)
           == if row.user == u then [row] + Newest(entries, u, limit) else Newest(entries, u, limit + 1)
    {
      assert (entries + [row])[..|entries|] == entries;
    }
    if entries != [] && limit > 0 {
      var n := |entries| - 1;
      HistoryIsTheLatest(entries[..n], u, if entries[n].user == u then limit - 1 else limit);
    }
  }

  lemma NobodyHolds(s: State, u: User)
    requires Reachable(s)
    ensures Sum(s.entries, InStatus(u, EntryStatus.Held)) == 0
  {
    forall i | 0 <= i < |s.entries| ensures !Selects(InStatus(u, EntryStatus.Held), s.entries[i]) {
      NothingIsHeld(s, i);
    }
    SumOfNothing(s.entries, InStatus(u, EntryStatus.Held));
  }

  /** A sweep empties the table of due earnings whose order is decided. */
  lemma SweepLeavesNothingDue(entries: seq<Entry>, orders: seq<Order>, now: Time, i: nat)
    requires i < |entries|
    ensures var e := Update(Release(now, orders), entries)[i];
      && (Due(e, now) ==> !Decided(orders, e))
      && (e != entries[i] <==> Due(entries[i], now) && Decided(orders, entries[i]))
  {
  }

  predicate Decided(orders: seq<Order>, e: Entry) {
    OrderHas(orders, e.order, Payable) || OrderHas(orders, e.order, Voided)
  }
}
