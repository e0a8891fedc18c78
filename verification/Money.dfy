/** Double entry over all runs, and the life of a single wallet entry. */
module Money {
  import opened Domain
  import opened Pricing
  import opened Ledger
  import opened Lifecycle
  import opened Marketplace
  import opened Runs
  import opened Finality

  // ---- How a step may change the table ----

  /** Amount, owner, order, kind, schedule and reason of a row never change. */
  predicate SameEntry(a: Entry, b: Entry) {
    && a.user == b.user && a.order == b.order && a.kind == b.kind && a.amountCents == b.amountCents
    && a.availableAt == b.availableAt && a.note == b.note
  }

  /** How many status changes a row can still go through. */
  function Budget(status: EntryStatus): nat {
    match status
    case Pending => 2
    case Available => 1
    case Held => 0
    case PaidOut => 0
    case Cancelled => 0
  }

  /** PENDING becomes AVAILABLE (once due) or CANCELLED, AVAILABLE becomes PAID_OUT; nothing else. */
  predicate Moves(a: Entry, b: Entry, now: Time) {
    || b == a
    || (a.status.Pending? && b == a.(status := EntryStatus.Cancelled))
    || (Due(a, now) && b == a.(status := EntryStatus.Available, releasedAt := Some(now)))
    || (a.status.Available? && b.withdrawal.Some? && b == a.(status := EntryStatus.PaidOut, withdrawal := b.withdrawal))
  }

  predicate Fresh(e: Entry) {
    (e.status.Pending? || e.status.Available? || e.status.Held?) && e.withdrawal.None? && !e.kind.Withdrawal?
  }

  /** A step that settles nothing: rows move without touching the paid ones, and new rows are fresh. */
  predicate Quiet(before: seq<Entry>, after: seq<Entry>, now: Time) {
    && |before| <= |after|
    && (forall i :: 0 <= i < |before| ==>
          Moves(before[i], after[i], now) && (after[i].status.PaidOut? ==> after[i] == before[i]))
    && (forall i :: |before| <= i < |after| ==> Fresh(after[i]))
  }

  predicate AllFresh(rows: seq<Entry>) {
    forall i :: 0 <= i < |rows| ==> Fresh(rows[i])
  }

  lemma BookedRowsAreFresh(e: Event, o: OrderId, l: Local, now: Time, window: nat)
    requires ForDelivery(e) ==> l.delivery.Some?
    ensures var eff := Decide(e, o, l, now, window).effect; eff.Some? ==> AllFresh(eff.value.booked)
  {
    if ForDelivery(e) { DriverRowsAreFresh(e, o, l, now, window); }
  }

  lemma DriverRowsAreFresh(e: Event, o: OrderId, l: Local, now: Time, window: nat)
    requires ForDelivery(e) && l.delivery.Some?
    ensures var eff := Decide(e, o, l, now, window).effect; eff.Some? ==> AllFresh(eff.value.booked)
  {
    if e.DriverTimeout? || e.ReportUnavailable? { SettlementRowsAreFresh(e, o, l, now, window); }
    else { ScanRowsAreFresh(e, o, l, now, window); }
  }

  lemma SettlementRowsAreFresh(e: Event, o: OrderId, l: Local, now: Time, window: nat)
    requires (e.DriverTimeout? || e.ReportUnavailable?) && l.delivery.Some?
    ensures var eff := Decide(e, o, l, now, window).effect; eff.Some? ==> AllFresh(eff.value.booked)
  {
  }

  lemma ScanRowsAreFresh(e: Event, o: OrderId, l: Local, now: Time, window: nat)
    requires ForDelivery(e) && !e.DriverTimeout? && !e.ReportUnavailable? && l.delivery.Some?
    ensures var eff := Decide(e, o, l, now, window).effect; eff.Some? ==> AllFresh(eff.value.booked)
  {
  }

  lemma ReversedMoves(entries: seq<Entry>, o: OrderId, refundsNow: bool, driver: bool, now: Time)
    ensures Quiet(entries, Reversed(entries, o, refundsNow, driver), now)
  {
  }

  lemma InsertedIsQuiet(before: seq<Entry>, after: seq<Entry>, rows: seq<Entry>, now: Time)
    requires Quiet(before, after, now) && |before| == |after|
    requires AllFresh(rows)
    ensures Quiet(before, InsertAll(after, rows), now)
  {
    InsertAllAddsOnly(after, rows);
    var r := InsertAll(after, rows);
    forall i | 0 <= i < |before| ensures r[i] == after[i] {
      assert r[..|after|][i] == r[i];
    }
  }

  lemma HandlerIsQuiet(s: State, o: OrderId, d: Option<DeliveryId>, e: Event)
    requires o < |s.orders| && (d.Some? ==> d.value < |s.deliveries|) && (ForDelivery(e) ==> d.Some?)
    ensures Quiet(s.entries, Perform(s, o, d, e).state.entries, s.now)
    ensures Perform(s, o, d, e).state.transferLog == s.transferLog
  {
    var eff := Decide(e, o, LocalAt(s, o, d), s.now, s.releaseWindow).effect;
    if eff.Some? {
      BookedRowsAreFresh(e, o, LocalAt(s, o, d), s.now, s.releaseWindow);
      var refundsNow := RefundsNow(s.orders[o], eff.value.order);
      ReversedMoves(s.entries, o, refundsNow, eff.value.reverseDriverPay, s.now);
      InsertedIsQuiet(s.entries, Reversed(s.entries, o, refundsNow, eff.value.reverseDriverPay),
                      eff.value.booked, s.now);
    }
  }

  lemma SweepIsQuiet(s: State)
    ensures Quiet(s.entries, Step(s, Sweep).entries, s.now)
  {
  }

  /** Every step but a withdrawal is quiet. */
  lemma StepsAreQuiet(s: State, a: Action)
    requires !a.Withdraw?
    ensures Quiet(s.entries, Step(s, a).entries, s.now) && Step(s, a).transferLog == s.transferLog
  {
    var c := CallOf(s, a);
    if c.Some? {
      StepRunsItsCall(s, a);
      HandlerIsQuiet(c.value.before, c.value.order, c.value.delivery, c.value.event);
    } else {
      StepWithoutCall(s, a);
      if a.Sweep? { SweepIsQuiet(s); }
    }
  }

  // ---- Double entry ----

  function Transferred(log: seq<TransferRecord>, u: User): int {
    if log == [] then 0
    else Transferred(log[..|log| - 1], u) + if log[|log| - 1].user == u then log[|log| - 1].amountCents else 0
  }

  lemma TransferredAppend(log: seq<TransferRecord>, t: TransferRecord, u: User)
    ensures Transferred(log + [t], u) == Transferred(log, u) + if t.user == u then t.amountCents else 0
  {
    assert (log + [t])[..|log|] == log;
  }

  predicate RowSettles(e: Entry, transfers: nat) {
    && (e.withdrawal.Some? <==> e.status.PaidOut?)
    && (e.withdrawal.Some? ==> e.withdrawal.value < transfers)
    && (e.kind.Withdrawal? ==> e.status.PaidOut?)
  }

  predicate RowsSettle(entries: seq<Entry>, transfers: nat) {
    forall i :: 0 <= i < |entries| ==> RowSettles(entries[i], transfers)
  }

  ghost predicate Balanced(s: State) {
    && RowsSettle(s.entries, |s.transferLog|)
    && (forall u :: Sum(s.entries, InStatus(u, EntryStatus.PaidOut)) == 0)
    && (forall w :: Sum(s.entries, OfWithdrawal(w)) == 0)
    && (forall u :: Sum(s.entries, Payouts(u)) == -Transferred(s.transferLog, u))
    && (forall i :: 0 <= i < |s.transferLog| ==> s.transferLog[i].amountCents >= WITHDRAWAL_MIN_CENTS)
  }

  /** The selections that only see settled rows. */
  predicate SeesSettled(q: Selection) {
    (q.InStatus? && q.status.PaidOut?) || q.OfWithdrawal? || q.Payouts?
  }

  lemma {:induction false} SumOfExtension(entries: seq<Entry>, n: nat, q: Selection)
    requires n <= |entries|
    requires forall i :: n <= i < |entries| ==> !Selects(q, entries[i])
    ensures Sum(entries, q) == Sum(entries[..n], q)
  {
    if n == |entries| {
      assert entries[..n] == entries;
    } else {
      var m := |entries| - 1;
      SumOfExtension(entries[..m], n, q);
      assert entries[..m][..n] == entries[..n];
    }
  }

  lemma QuietKeepsSettled(before: seq<Entry>, after: seq<Entry>, now: Time, q: Selection)
    requires Quiet(before, after, now) && SeesSettled(q)
    ensures Sum(after, q) == Sum(before, q)
  {
    SumOfExtension(after, |before|, q);
    SumDependsOnSelected(before, after[..|before|], q);
  }

  lemma QuietKeepsRows(before: seq<Entry>, after: seq<Entry>, now: Time, transfers: nat)
    requires Quiet(before, after, now) && RowsSettle(before, transfers)
    ensures RowsSettle(after, transfers)
  {
    forall i | 0 <= i < |after| ensures RowSettles(after[i], transfers) {
      if i < |before| { assert RowSettles(before[i], transfers); }
    }
  }

  lemma QuietKeepsBalanced(s: State, s': State, now: Time)
    requires Balanced(s) && Quiet(s.entries, s'.entries, now) && s'.transferLog == s.transferLog
    ensures Balanced(s')
  {
    QuietKeepsRows(s.entries, s'.entries, now, |s.transferLog|);
    forall q | SeesSettled(q) ensures Sum(s'.entries, q) == Sum(s.entries, q) {
      QuietKeepsSettled(s.entries, s'.entries, now, q);
    }
    forall u ensures Sum(s'.entries, InStatus(u, EntryStatus.PaidOut)) == 0
      && Sum(s'.entries, Payouts(u)) == -Transferred(s.transferLog, u)
    {
      assert SeesSettled(InStatus(u, EntryStatus.PaidOut)) && SeesSettled(Payouts(u));
    }
    forall w ensures Sum(s'.entries, OfWithdrawal(w)) == 0 {
      assert SeesSettled(OfWithdrawal(w));
    }
  }

  // ---- Settling a withdrawal ----

  /** Settling moves a user's AVAILABLE sum to PAID_OUT, and gives the new withdrawal exactly that sum. */
  lemma {:induction false} SettleMovesTheBalance(entries: seq<Entry>, user: User, w: nat)
    requires RowsSettle(entries, w)
    ensures var es := Update(Settle(user, w), entries);
      && Sum(es, InStatus(user, EntryStatus.PaidOut))
         == Sum(entries, InStatus(user, EntryStatus.PaidOut)) + Sum(entries, InStatus(user, EntryStatus.Available))
      && Sum(es, OfWithdrawal(w)) == Sum(entries, InStatus(user, EntryStatus.Available))
      && Sum(es, Payouts(user)) == Sum(entries, Payouts(user))
  {
    if entries == [] {
    } else {
      var n := |entries| - 1;
      SettleMovesTheBalance(entries[..n], user, w);
      var es := Update(Settle(user, w), entries);
      assert es[..n] == Update(Settle(user, w), entries[..n]);
      assert RowSettles(entries[n], w);
    }
  }

  lemma SettleSparesOthers(entries: seq<Entry>, user: User, w: nat, q: Selection)
    requires RowsSettle(entries, w) && SeesSettled(q)
    requires q.OfWithdrawal? ==> q.withdrawal != w
    requires !q.OfWithdrawal? ==> q.user != user
    ensures Sum(Update(Settle(user, w), entries), q) == Sum(entries, q)
  {
    forall i | 0 <= i < |entries|
      ensures Selects(q, entries[i]) <==> Selects(q, Update(Settle(user, w), entries)[i])
    {
      assert RowSettles(entries[i], w);
    }
    SumDependsOnSelected(entries, Update(Settle(user, w), entries), q);
  }

  lemma NothingOfNewWithdrawal(entries: seq<Entry>, w: nat)
    requires RowsSettle(entries, w)
    ensures Sum(entries, OfWithdrawal(w)) == 0
  {
    forall i | 0 <= i < |entries| ensures !Selects(OfWithdrawal(w), entries[i]) {
      assert RowSettles(entries[i], w);
    }
    SumOfNothing(entries, OfWithdrawal(w));
  }

  lemma SettledRows(entries: seq<Entry>, user: User, w: nat, total: int)
    requires RowsSettle(entries, w)
    ensures RowsSettle(Update(Settle(user, w), entries) + [WithdrawalRow(user, w, total)], w + 1)
  {
    var es := Update(Settle(user, w), entries);
    forall i | 0 <= i < |es| ensures RowSettles(es[i], w + 1) {
      assert RowSettles(entries[i], w);
    }
  }

  /** The sums after a withdrawal: its rows cancel against its debit, and nobody else's sums move. */
  lemma SumsAfterWithdrawal(entries: seq<Entry>, user: User, w: nat, q: Selection)
    requires RowsSettle(entries, w) && SeesSettled(q)
    ensures var total := Sum(entries, InStatus(user, EntryStatus.Available));
      Sum(Update(Settle(user, w), entries) + [WithdrawalRow(user, w, total)], q)
      == Sum(entries, q) - if q == Payouts(user) then total else 0
  {
    var total := Sum(entries, InStatus(user, EntryStatus.Available));
    var es, row := Update(Settle(user, w), entries), WithdrawalRow(user, w, total);
    SumAppend(es, row, q);
    SettleMovesTheBalance(entries, user, w);
    NothingOfNewWithdrawal(entries, w);
    if (if q.OfWithdrawal? then q.withdrawal != w else q.user != user) { SettleSparesOthers(entries, user, w, q); }
  }

  lemma WithdrawKeepsBalanced(s: State, user: User, payoutReady: bool, transferred: bool)
    requires Balanced(s)
    ensures Balanced(Payout(s, user, payoutReady, transferred).state)
  {
    var s' := Payout(s, user, payoutReady, transferred).state;
    var w, total := |s.transferLog|, Sum(s.entries, InStatus(user, EntryStatus.Available));
    if Payout(s, user, payoutReady, transferred).outcome.Done? {
      SettledRows(s.entries, user, w, total);
      forall u: User ensures Sum(s'.entries, InStatus(u, EntryStatus.PaidOut)) == 0
        && Sum(s'.entries, Payouts(u)) == -Transferred(s'.transferLog, u)
      {
        SumsAfterWithdrawal(s.entries, user, w, InStatus(u, EntryStatus.PaidOut));
        SumsAfterWithdrawal(s.entries, user, w, Payouts(u));
        TransferredAppend(s.transferLog, TransferRecord(user, total), u);
      }
      forall v: nat ensures Sum(s'.entries, OfWithdrawal(v)) == 0 {
        SumsAfterWithdrawal(s.entries, user, w, OfWithdrawal(v));
      }
    }
  }

  lemma {:induction false} EveryRunIsBalanced(s: State, actions: seq<Action>)
    requires Balanced(s)
    ensures Balanced(Run(s, actions))
  {
    if actions == [] {
    } else {
      var n := |actions| - 1;
      EveryRunIsBalanced(s, actions[..n]);
      var t, a := Run(s, actions[..n]), actions[n];
      if a.Withdraw? {
        WithdrawKeepsBalanced(t, a.user, a.payoutReady, a.transferred);
      } else {
        StepsAreQuiet(t, a);
        QuietKeepsBalanced(t, Step(t, a), t.now);
      }
    }
  }

  // ---- Each withdrawal on its own ----

  /** A row settled under a withdrawal belongs to the user of its transfer; a debit row is that transfer, negated. */
  predicate RowMatches(e: Entry, log: seq<TransferRecord>) {
    && (e.kind.Withdrawal? ==> e.withdrawal.Some?)
    && (e.withdrawal.Some? ==>
          e.withdrawal.value < |log| && e.user == log[e.withdrawal.value].user
          && (e.kind.Withdrawal? ==> e.amountCents == -log[e.withdrawal.value].amountCents))
  }

  predicate RowsMatch(entries: seq<Entry>, log: seq<TransferRecord>) {
    forall i :: 0 <= i < |entries| ==> RowMatches(entries[i], log)
  }

  predicate IsDebit(e: Entry, w: nat) {
    e.kind.Withdrawal? && e.withdrawal == Some(w)
  }

  predicate HasDebit(entries: seq<Entry>, w: nat) {
    exists i :: 0 <= i < |entries| && IsDebit(entries[i], w)
  }

  predicate DebitsDiffer(entries: seq<Entry>) {
    forall i, j :: 0 <= i < j < |entries| && entries[i].kind.Withdrawal? && entries[j].kind.Withdrawal? ==>
      entries[i].withdrawal != entries[j].withdrawal
  }

  predicate Matched(s: State) {
    && RowsSettle(s.entries, |s.transferLog|)
    && RowsMatch(s.entries, s.transferLog)
    && (forall w :: 0 <= w < |s.transferLog| ==> HasDebit(s.entries, w))
    && DebitsDiffer(s.entries)
  }

  lemma QuietKeepsMatched(s: State, s': State, now: Time)
    requires Matched(s) && Quiet(s.entries, s'.entries, now) && s'.transferLog == s.transferLog
    ensures Matched(s')
  {
    QuietKeepsRows(s.entries, s'.entries, now, |s.transferLog|);
    forall i | 0 <= i < |s'.entries|
      ensures s'.entries[i].withdrawal.Some? || s'.entries[i].kind.Withdrawal? ==>
        i < |s.entries| && s'.entries[i] == s.entries[i]
    {
      assert RowSettles(s'.entries[i], |s.transferLog|);
    }
    forall i | 0 <= i < |s'.entries| ensures RowMatches(s'.entries[i], s'.transferLog) {
      if i < |s.entries| { assert RowMatches(s.entries[i], s.transferLog); }
    }
    forall w | 0 <= w < |s.transferLog| ensures HasDebit(s'.entries, w) {
      assert HasDebit(s.entries, w);
      var i :| 0 <= i < |s.entries| && IsDebit(s.entries[i], w);
      assert RowSettles(s.entries[i], |s.transferLog|) && Moves(s.entries[i], s'.entries[i], now);
      assert IsDebit(s'.entries[i], w);
    }
  }

  lemma PayoutKeepsMatched(s: State, user: User, payoutReady: bool, transferred: bool)
    requires Matched(s)
    ensures Matched(Payout(s, user, payoutReady, transferred).state)
  {
    if Payout(s, user, payoutReady, transferred).outcome.Done? {
      var total := Sum(s.entries, InStatus(user, EntryStatus.Available));
      var s' := Payout(s, user, payoutReady, transferred).state;
      SettledRows(s.entries, user, |s.transferLog|, total);
      SettledMatch(s.entries, s.transferLog, user, total);
      assert s'.entries
          == Update(Settle(user, |s.transferLog|), s.entries) + [WithdrawalRow(user, |s.transferLog|, total)];
    }
  }

  lemma SettledMatch(entries: seq<Entry>, log: seq<TransferRecord>, user: User, total: int)
    requires RowsSettle(entries, |log|) && RowsMatch(entries, log) && DebitsDiffer(entries)
    requires forall w :: 0 <= w < |log| ==> HasDebit(entries, w)
    ensures var es := Update(Settle(user, |log|), entries) + [WithdrawalRow(user, |log|, total)];
      var log' := log + [TransferRecord(user, total)];
      && RowsMatch(es, log') && DebitsDiffer(es)
      && forall w :: 0 <= w < |log'| ==> HasDebit(es, w)
  {
    var n := |entries|;
    var es := Update(Settle(user, |log|), entries) + [WithdrawalRow(user, |log|, total)];
    var log' := log + [TransferRecord(user, total)];
    forall i | 0 <= i < n
      ensures RowMatches(es[i], log') && (entries[i].kind.Withdrawal? ==> es[i] == entries[i])
      ensures entries[i].kind.Withdrawal? ==> entries[i].withdrawal.Some? && entries[i].withdrawal.value < |log|
    {
      assert RowMatches(entries[i], log) && RowSettles(entries[i], |log|);
    }
    forall w | 0 <= w < |log'| ensures HasDebit(es, w) {
      if w < |log| {
        assert HasDebit(entries, w);
        var i :| 0 <= i < n && IsDebit(entries[i], w);
        assert IsDebit(es[i], w);
      } else {
        assert IsDebit(es[n], w);
      }
    }
  }

  lemma {:induction false} EveryRunIsMatched(s: State, actions: seq<Action>)
    requires Matched(s)
    ensures Matched(Run(s, actions))
  {
    if actions == [] {
    } else {
      var n := |actions| - 1;
      EveryRunIsMatched(s, actions[..n]);
      var t, a := Run(s, actions[..n]), actions[n];
      if a.Withdraw? {
        PayoutKeepsMatched(t, a.user, a.payoutReady, a.transferred);
      } else {
        StepsAreQuiet(t, a);
        QuietKeepsMatched(t, Step(t, a), t.now);
      }
    }
  }

  /** Per withdrawal, in every reachable state: there is exactly one debit row, with the user and the negated amount of
      its transfer, and every row settled under the withdrawal belongs to that user. */
  lemma WithdrawalsMatchTransfers(s: State, w: nat)
    requires Reachable(s) && w < |s.transferLog|
    ensures exists i :: 0 <= i < |s.entries| && IsDebit(s.entries[i], w)
    ensures forall i :: 0 <= i < |s.entries| && IsDebit(s.entries[i], w) ==>
      && s.entries[i].user == s.transferLog[w].user
      && s.entries[i].amountCents == -s.transferLog[w].amountCents
      && forall j :: 0 <= j < |s.entries| && IsDebit(s.entries[j], w) ==> i == j
    ensures forall i :: 0 <= i < |s.entries| && s.entries[i].withdrawal == Some(w) ==>
      s.entries[i].user == s.transferLog[w].user
  {
    var tariff, window, start, actions :| s == Run(InitialState(tariff, window, start), actions);
    EveryRunIsMatched(InitialState(tariff, window, start), actions);
    assert HasDebit(s.entries, w);
    forall i | 0 <= i < |s.entries| && s.entries[i].withdrawal == Some(w)
      ensures s.entries[i].user == s.transferLog[w].user
      ensures IsDebit(s.entries[i], w) ==> s.entries[i].amountCents == -s.transferLog[w].amountCents
    {
      assert RowMatches(s.entries[i], s.transferLog);
    }
  }

  /** Without withdrawal rows outside PAID_OUT, every counting row is in exactly one balance. */
  lemma {:induction false} CreditsSplit(entries: seq<Entry>, transfers: nat, u: User)
    requires RowsSettle(entries, transfers)
    ensures Sum(entries, Credits(u)) + Sum(entries, Payouts(u))
         == Sum(entries, InStatus(u, EntryStatus.Available)) + Sum(entries, InStatus(u, EntryStatus.Pending))
            + Sum(entries, InStatus(u, EntryStatus.Held)) + Sum(entries, InStatus(u, EntryStatus.PaidOut))
  {
    if entries == [] {
    } else {
      assert RowSettles(entries[|entries| - 1], transfers);
      CreditsSplit(entries[..|entries| - 1], transfers, u);
    }
  }

  /** Double entry in every reachable state: what was transferred to a user plus what is available, pending and held
      is what the ledger credited, debts included; settled rows cancel, per user and per withdrawal; and no transfer
      is below the minimum. */
  lemma LedgerIsDoubleEntry(s: State, u: User)
    requires Reachable(s)
    ensures Sum(s.entries, InStatus(u, EntryStatus.PaidOut)) == 0
    ensures forall w :: Sum(s.entries, OfWithdrawal(w)) == 0
    ensures Transferred(s.transferLog, u) + Sum(s.entries, InStatus(u, EntryStatus.Available))
              + Sum(s.entries, InStatus(u, EntryStatus.Pending)) + Sum(s.entries, InStatus(u, EntryStatus.Held))
         == Sum(s.entries, Credits(u))
    ensures forall i :: 0 <= i < |s.transferLog| ==> s.transferLog[i].amountCents >= WITHDRAWAL_MIN_CENTS
  {
    var tariff, window, start, actions :| s == Run(InitialState(tariff, window, start), actions);
    EveryRunIsBalanced(InitialState(tariff, window, start), actions);
    CreditsSplit(s.entries, |s.transferLog|, u);
  }

  // ---- When a withdrawal goes through ----

  lemma NothingLeft(entries: seq<Entry>, user: User, w: nat)
    ensures Sum(Update(Settle(user, w), entries), InStatus(user, EntryStatus.Available)) == 0
  {
    var q := InStatus(user, EntryStatus.Available);
    forall i | 0 <= i < |entries| ensures !Selects(q, Update(Settle(user, w), entries)[i]) {
      assert Update(Settle(user, w), entries)[i] == UpdateOne(Settle(user, w), entries[i]);
    }
    SumOfNothing(Update(Settle(user, w), entries), q);
  }

  /** A withdrawal goes through exactly for a person with at least 50 euros available, a payout account, and a transfer
      that works. It then transfers the whole balance, marks exactly the user's AVAILABLE rows as paid out by it, adds
      one debit row and leaves nothing available; otherwise it changes nothing at all. */
  lemma WithdrawsExactlyWhen(s: State, user: User, payoutReady: bool, transferred: bool)
    ensures var s' := Step(s, Withdraw(user, payoutReady, transferred));
      var balance, w := Sum(s.entries, InStatus(user, EntryStatus.Available)), |s.transferLog|;
      if user.Person? && balance >= 5_000 && payoutReady && transferred
      then
        && Handle(s, Withdraw(user, payoutReady, transferred)).outcome.Done?
        && s' == s.(entries := s'.entries, transferLog := s.transferLog + [TransferRecord(user, balance)])
        && |s'.entries| == |s.entries| + 1
        && s'.entries[|s.entries|]
           == Entry(user, None, Withdrawal, -balance, EntryStatus.PaidOut, Some(w), None, None, Transfer)
        && (forall i :: 0 <= i < |s.entries| ==>
              s'.entries[i] == if s.entries[i].user == user && s.entries[i].status.Available?
                               then s.entries[i].(status := EntryStatus.PaidOut, withdrawal := Some(w))
                               else s.entries[i])
        && Sum(s'.entries, InStatus(user, EntryStatus.Available)) == 0
      else s' == s && Handle(s, Withdraw(user, payoutReady, transferred)).outcome.Failed?
  {
    var balance, w := Sum(s.entries, InStatus(user, EntryStatus.Available)), |s.transferLog|;
    if user.Person? && balance >= 5_000 && payoutReady && transferred {
      NothingLeft(s.entries, user, w);
      SumAppend(Update(Settle(user, w), s.entries), WithdrawalRow(user, w, balance),
                InStatus(user, EntryStatus.Available));
    }
  }

  // ---- Summary ----

  datatype Summary = Summary(
    availableCents: int,
    pendingCents: int,
    heldCents: int,
    paidOutCents: int,
    debtCents: int,
    totalBalanceCents: int,
    minWithdrawalCents: int,
    canWithdraw: bool,
    entries: seq<Entry>)

  const HISTORY := 50

  /** The user's latest rows, newest first. */
  function Newest(entries: seq<Entry>, u: User, limit: nat): (r: seq<Entry>)
    ensures |r| <= limit
    ensures forall i :: 0 <= i < |r| ==> r[i].user == u && r[i] in entries
  {
    if entries == [] || limit == 0 then []
    else
      var n := |entries| - 1;
      if entries[n].user == u then [entries[n]] + Newest(entries[..n], u, limit - 1) else Newest(entries[..n], u, limit)
  }

  /** `summary` */
  function SummaryOf(entries: seq<Entry>, u: User): Summary {
    var raw := Sum(entries, InStatus(u, EntryStatus.Available));
    var pending := Sum(entries, InStatus(u, EntryStatus.Pending));
    var onHold := Sum(entries, InStatus(u, EntryStatus.Held));
    var available := Max(0, raw);
    var debt := if raw < 0 then -raw else 0;
    Summary(available, pending, onHold, Sum(entries, InStatus(u, EntryStatus.PaidOut)), debt,
            raw + pending + onHold, WITHDRAWAL_MIN_CENTS, debt == 0 && available >= WITHDRAWAL_MIN_CENTS,
            Newest(entries, u, HISTORY))
  }

  /** The app offers a withdrawal exactly when the request would pass the balance checks, and the balances shown
      reconcile: nothing is ever held or left in the settled sum. */
  lemma CanWithdrawIsExact(s: State, id: nat)
    requires Reachable(s)
    ensures var m := SummaryOf(s.entries, Person(id));
      && (m.canWithdraw <==> Payout(s, Person(id), true, true).outcome.Done?)
      && m.paidOutCents == 0
      && m.availableCents - m.debtCents + m.pendingCents + m.heldCents == m.totalBalanceCents
      && m.totalBalanceCents + Transferred(s.transferLog, Person(id)) == Sum(s.entries, Credits(Person(id)))
  {
    LedgerIsDoubleEntry(s, Person(id));
  }
}
