/** Every step of the whole system moves each order by at most one handler, and keeps the invariant in every run. */
module Runs {
  import opened Domain
  import opened Pricing
  import opened Ledger
  import opened Lifecycle
  import opened Marketplace
  import opened Consistency
  import opened Views

  // ---- The handler inside a step ----

  /** A handler call: the state it runs on, the order, its delivery row and the event. */
  datatype Call = Call(before: State, order: OrderId, delivery: Option<DeliveryId>, event: Event)

  /** States that differ in disputes and requests in flight only. */
  predicate Beside(s: State, t: State) {
    t == s.(disputes := t.disputes, cancelsInFlight := t.cancelsInFlight, failuresInFlight := t.failuresInFlight)
  }

  predicate RefundsDispute(s: State, o: OrderId, caller: User, kind: DisputeKind, proof: bool, description: bool)
    requires o < |s.orders|
  {
    FilingError(s, o, caller, kind, proof, description).None? && DisputeDecision(kind, LatestRow(s, o)).1
  }

  /** The one handler call of a step, if it makes one. */
  function CallOf(s: State, a: Action): (c: Option<Call>)
    ensures c.Some? ==>
      && Beside(s, c.value.before) && c.value.order < |s.orders|
      && (c.value.delivery.Some? ==> c.value.delivery.value < |s.deliveries|)
      && (ForDelivery(c.value.event) ==> c.value.delivery.Some?)
      && (c.value.event.MarkReady? ==> c.value.delivery.None?)
  {
    match a
    case OnOrder(o, e) =>
      if o < |s.orders| && !ForDelivery(e) && !Internal(e) then Some(Call(s, o, DeliveryFor(s, o, e), e)) else None
    case OnDelivery(d, e) =>
      if ForDelivery(e) && d < |s.deliveries| && s.deliveries[d].order < |s.orders|
      then Some(Call(s, s.deliveries[d].order, Some(d), e)) else None
    case CommitCancel(o, stripe) =>
      if o in s.cancelsInFlight && o < |s.orders|
      then Some(Call(s.(cancelsInFlight := s.cancelsInFlight - multiset{o}), o, LatestDelivery(s.deliveries, o),
                     CancelBySeller(stripe)))
      else None
    case CommitFailure(f) =>
      if f in s.failuresInFlight && f.order < |s.orders|
      then Some(Call(s.(failuresInFlight := s.failuresInFlight - multiset{f}), f.order,
                     LatestDelivery(s.deliveries, f.order), PaymentFailed(f.intent, f.hadIntent)))
      else None
    case FileDispute(o, caller, kind, proof, description, stripe) =>
      if o < |s.orders| && RefundsDispute(s, o, caller, kind, proof, description)
      then Some(Call(Filed(s, o, kind), o, LatestDelivery(s.deliveries, o), RefundForDispute(stripe))) else None
    case ApproveDispute(i, stripe) =>
      if i < |s.disputes| && s.disputes[i].order < |s.orders|
      then Some(Call(s, s.disputes[i].order, LatestDelivery(s.deliveries, s.disputes[i].order),
                     RefundForDispute(stripe)))
      else None
    case _ => None
  }

  function AfterCall(c: Call): State
    requires c.order < |c.before.orders| && (c.delivery.Some? ==> c.delivery.value < |c.before.deliveries|)
    requires ForDelivery(c.event) ==> c.delivery.Some?
  {
    Perform(c.before, c.order, c.delivery, c.event).state
  }

  /** A step that makes a call is that call, up to the dispute it then closes. */
  lemma StepRunsItsCall(s: State, a: Action)
    requires CallOf(s, a).Some?
    ensures Step(s, a) == AfterCall(CallOf(s, a).value).(disputes := Step(s, a).disputes)
    ensures !a.ApproveDispute? ==> Step(s, a) == AfterCall(CallOf(s, a).value)
  {
    if a.FileDispute? {
      FilingRunsItsCall(s, a.order, a.caller, a.kind, a.proof, a.description, a.stripe);
    } else if a.ApproveDispute? {
      ApprovalRunsItsCall(s, a.dispute, a.stripe);
    } else {
      EventRunsItsCall(s, a);
    }
  }

  lemma EventRunsItsCall(s: State, a: Action)
    requires CallOf(s, a).Some? && !a.FileDispute? && !a.ApproveDispute?
    ensures Step(s, a) == AfterCall(CallOf(s, a).value)
  {
  }

  lemma FilingRunsItsCall(s: State, o: OrderId, caller: User, kind: DisputeKind, proof: bool, description: bool,
                          stripe: StripeReply)
    requires CallOf(s, FileDispute(o, caller, kind, proof, description, stripe)).Some?
    ensures var a := FileDispute(o, caller, kind, proof, description, stripe);
      Step(s, a) == AfterCall(CallOf(s, a).value)
  {
  }

  lemma ApprovalRunsItsCall(s: State, i: nat, stripe: StripeReply)
    requires CallOf(s, ApproveDispute(i, stripe)).Some?
    ensures var a := ApproveDispute(i, stripe);
      Step(s, a) == AfterCall(CallOf(s, a).value)
                    .(disputes := s.disputes[i := Granted(s.disputes[i],
                                                          s.orders[s.disputes[i].order].terms.buyerTotalCents)])
  {
  }

  predicate SameRows(s: State, s': State) {
    && s'.orders == s.orders && s'.deliveries == s.deliveries && s'.entries == s.entries && s'.refundLog == s.refundLog
    && s'.tariff == s.tariff && s'.releaseWindow == s.releaseWindow && s.now <= s'.now
  }

  predicate SameStock(s: State, s': State) {
    s'.orders == s.orders && s'.listings == s.listings && s'.supplied == s.supplied
  }

  predicate CallsOrIdles(a: Action) {
    a.OnOrder? || a.OnDelivery? || a.CommitCancel? || a.CommitFailure? || a.ApproveDispute?
  }

  lemma IdleStep(s: State, a: Action)
    requires CallOf(s, a).None? && CallsOrIdles(a)
    ensures Step(s, a) == s
  {
  }

  predicate LeavesTheRest(s: State, a: Action, s': State) {
    && (a.Sweep? || a.Withdraw? || a.PlaceOrder? || SameRows(s, s'))
    && (a.Sweep? || a.Withdraw? || s'.entries == s.entries)
    && (a.PlaceOrder? || a.EditListing? || SameStock(s, s'))
    && (a.Withdraw? || s'.transferLog == s.transferLog)
  }

  /** A step without a call leaves alone what it is not about. */
  lemma StepWithoutCall(s: State, a: Action)
    requires CallOf(s, a).None?
    ensures LeavesTheRest(s, a, Step(s, a))
  {
    if CallsOrIdles(a) {
      IdleStep(s, a);
    } else if a.FileDispute? {
      FilingWithoutCall(s, a.order, a.caller, a.kind, a.proof, a.description, a.stripe);
    } else {
      PlainStep(s, a);
    }
  }

  lemma PlainStep(s: State, a: Action)
    requires !CallsOrIdles(a) && !a.FileDispute?
    ensures LeavesTheRest(s, a, Step(s, a))
  {
    if a.PlaceOrder? { PlacingLeavesTheRest(s, a.placement); }
    else if a.Withdraw? { PayoutLeavesTheRest(s, a.user, a.payoutReady, a.transferred); }
    else if a.EditListing? { EditingLeavesTheRest(s, a.listing, a.row); }
    else if a.ChargeDispute? || a.CloseDispute? { DisputesLeaveTheRest(s, a); }
  }

  lemma DisputesLeaveTheRest(s: State, a: Action)
    requires a.ChargeDispute? || a.CloseDispute?
    ensures LeavesTheRest(s, a, Step(s, a))
  {
  }

  lemma EditingLeavesTheRest(s: State, l: ListingId, row: Listing)
    ensures var a := EditListing(l, row); LeavesTheRest(s, a, Step(s, a))
  {
  }

  lemma PayoutLeavesTheRest(s: State, user: User, payoutReady: bool, transferred: bool)
    ensures var a := Withdraw(user, payoutReady, transferred); LeavesTheRest(s, a, Step(s, a))
  {
  }

  lemma PlacingLeavesTheRest(s: State, p: Placement)
    ensures LeavesTheRest(s, PlaceOrder(p), Step(s, PlaceOrder(p)))
  {
  }

  lemma FilingWithoutCall(s: State, o: OrderId, caller: User, kind: DisputeKind, proof: bool, description: bool,
                          stripe: StripeReply)
    requires CallOf(s, FileDispute(o, caller, kind, proof, description, stripe)).None?
    ensures Step(s, FileDispute(o, caller, kind, proof, description, stripe))
         == if o < |s.orders| && FilingError(s, o, caller, kind, proof, description).None? then Filed(s, o, kind) else s
  {
  }

  predicate PaysOut(s: State, a: Action)
    requires a.Withdraw?
  {
    Payout(s, a.user, a.payoutReady, a.transferred).outcome.Done?
  }

  // ---- What a step does to one order ----

  datatype Cause = Untouched | Handled(event: Event) | Bulk(update: BulkUpdate)

  function CauseOf(s: State, a: Action, o: OrderId): Cause {
    var c := CallOf(s, a);
    if c.Some? then (if c.value.order == o then Handled(c.value.event) else Untouched)
    else
      match a
      case Sweep => Bulk(Release(s.now, s.orders))
      case Withdraw(user, _, _) => if PaysOut(s, a) then Bulk(Settle(user, |s.transferLog|)) else Untouched
      case _ => Untouched
  }

  function NextView(v: View, o: OrderId, c: Cause, now: Time, window: nat): View {
    match c
    case Untouched => v
    case Handled(e) =>
      if ForDelivery(e) && v.delivery.None? then v
      else
        var eff := EffectOf(e, v, o, now, window);
        if eff.Some? then After(v, o, eff.value) else v
    case Bulk(u) => v.(rows := Update(u, v.rows))
  }

  // ---- One handler ----

  predicate Called(s: State, o: OrderId, d: Option<DeliveryId>, e: Event) {
    && o < |s.orders|
    && (if e.MarkReady? then d.None? else d == LatestDelivery(s.deliveries, o))
    && (ForDelivery(e) ==> d.Some?)
  }

  /** Only order `o` moves, by its handler. */
  predicate MovesOnly(s: State, s': State, o: OrderId, e: Event) {
    && Linked(s') && |s'.orders| == |s.orders|
    && s'.tariff == s.tariff && s'.releaseWindow == s.releaseWindow && s'.now == s.now
    && forall p :: 0 <= p < |s.orders| ==>
         ViewOf(s', p) == NextView(ViewOf(s, p), p, if p == o then Handled(e) else Untouched, s.now, s.releaseWindow)
  }

  lemma HandlerOnViews(s: State, o: OrderId, d: Option<DeliveryId>, e: Event)
    requires Linked(s) && Called(s, o, d, e)
    requires Good(ViewOf(s, o), o, s.tariff, s.now, s.releaseWindow)
    ensures MovesOnly(s, Perform(s, o, d, e).state, o, e)
  {
    var v := ViewOf(s, o);
    var r := EffectOf(e, v, o, s.now, s.releaseWindow);
    assert LocalAt(s, o, d) == LocalOf(v, e);
    if r.Some? {
      HandlerIsAddressed(s, o, d, e, r.value);
      EffectMovesOnly(s, o, d, e, r.value);
    } else {
      NoEffectMovesNothing(s, o, e);
    }
  }

  lemma EffectMovesOnly(s: State, o: OrderId, d: Option<DeliveryId>, e: Event, eff: Effect)
    requires Linked(s) && Addressed(s, o, d) && (ForDelivery(e) ==> ViewOf(s, o).delivery.Some?)
    requires EffectOf(e, ViewOf(s, o), o, s.now, s.releaseWindow) == Some(eff)
    requires eff.delivery.Some? ==> eff.delivery.value.order == o
    requires d.Some? ==> eff.delivery.Some?
    requires forall i :: 0 <= i < |eff.booked| ==> eff.booked[i].order == Some(o)
    ensures MovesOnly(s, Apply(s, o, d, eff), o, e)
  {
    ApplyOnViews(s, o, d, eff);
    ApplyKeepsLinked(s, o, d, eff);
  }

  lemma NoEffectMovesNothing(s: State, o: OrderId, e: Event)
    requires Linked(s) && o < |s.orders| && (ForDelivery(e) ==> ViewOf(s, o).delivery.Some?)
    requires EffectOf(e, ViewOf(s, o), o, s.now, s.releaseWindow).None?
    ensures MovesOnly(s, s, o, e)
  {
  }

  lemma HandlerIsAddressed(s: State, o: OrderId, d: Option<DeliveryId>, e: Event, eff: Effect)
    requires Called(s, o, d, e) && Good(ViewOf(s, o), o, s.tariff, s.now, s.releaseWindow)
    requires EffectOf(e, ViewOf(s, o), o, s.now, s.releaseWindow) == Some(eff)
    ensures Addressed(s, o, d)
    ensures eff.delivery.Some? ==> eff.delivery.value.order == o
    ensures d.Some? ==> eff.delivery.Some?
    ensures forall i :: 0 <= i < |eff.booked| ==> eff.booked[i].order == Some(o)
  {
    var v := ViewOf(s, o);
    LegalKept(e, v, o, s.now, s.releaseWindow);
    if Books(e) { BookingIsFresh(e, v, o, s.now, s.releaseWindow); }
    else { NothingBooked(e, v, o, s.now, s.releaseWindow); }
    DeliveryIsKept(e, v, o, s.now, s.releaseWindow);
  }

  lemma DeliveryIsKept(e: Event, v: View, o: OrderId, now: Time, window: nat)
    requires ForDelivery(e) ==> v.delivery.Some?
    requires Legal(v.order, v.delivery, o)
    ensures var eff := EffectOf(e, v, o, now, window); eff.Some? ==>
      && (e.MarkReady? ==> v.delivery.None?)
      && (v.delivery.Some? ==> eff.value.delivery.Some?)
  {
  }

  // ---- Every kind of step ----

  /** The views after a step are the local transitions of the views before it. */
  predicate StepsLocally(s: State, a: Action, s': State) {
    && Linked(s')
    && |s.orders| <= |s'.orders|
    && s'.tariff == s.tariff && s'.releaseWindow == s.releaseWindow && s.now <= s'.now
    && (forall p :: 0 <= p < |s.orders| ==>
          ViewOf(s', p) == NextView(ViewOf(s, p), p, CauseOf(s, a, p), s.now, s.releaseWindow))
    && (forall p :: |s.orders| <= p < |s'.orders| ==>
          s'.orders[p].status.Pending? && Good(ViewOf(s', p), p, s.tariff, s.now, s.releaseWindow))
  }

  /** Tables a handler does not look at do not matter to it. */
  lemma SameViews(s: State, s': State)
    requires s'.orders == s.orders && s'.deliveries == s.deliveries && s'.entries == s.entries
    requires s'.refundLog == s.refundLog
    ensures forall p :: 0 <= p < |s.orders| ==> ViewOf(s', p) == ViewOf(s, p)
  {
  }

  /** A handler running beside bookkeeping on disputes or requests in flight. */
  lemma HandlerBeside(s: State, s0: State, o: OrderId, d: Option<DeliveryId>, e: Event)
    requires AllGood(s) && Linked(s0) && Called(s0, o, d, e)
    requires s0 == s.(disputes := s0.disputes, cancelsInFlight := s0.cancelsInFlight,
                      failuresInFlight := s0.failuresInFlight)
    ensures MovesOnly(s, Perform(s0, o, d, e).state, o, e)
  {
    SameViews(s, s0);
    assert Good(ViewOf(s, o), o, s.tariff, s.now, s.releaseWindow);
    HandlerOnViews(s0, o, d, e);
    BesideMoves(s, s0, Perform(s0, o, d, e).state, o, e);
  }

  lemma BesideMoves(s: State, s0: State, s': State, o: OrderId, e: Event)
    requires MovesOnly(s0, s', o, e)
    requires s0 == s.(disputes := s0.disputes, cancelsInFlight := s0.cancelsInFlight,
                      failuresInFlight := s0.failuresInFlight)
    ensures MovesOnly(s, s', o, e)
  {
    SameViews(s, s0);
    forall p | 0 <= p < |s.orders|
      ensures var c := if p == o then Handled(e) else Untouched;
        ViewOf(s', p) == NextView(ViewOf(s, p), p, c, s.now, s.releaseWindow)
    {
      assert ViewOf(s0, p) == ViewOf(s, p);
    }
  }

  lemma MovesAreLocal(s: State, a: Action, s': State, o: OrderId, e: Event)
    requires o < |s.orders| && MovesOnly(s, s', o, e)
    requires forall p :: 0 <= p < |s.orders| ==> CauseOf(s, a, p) == if p == o then Handled(e) else Untouched
    ensures StepsLocally(s, a, s')
  {
  }

  lemma CallIsCalled(s: State, a: Action)
    requires Linked(s) && CallOf(s, a).Some?
    ensures var c := CallOf(s, a).value; Called(c.before, c.order, c.delivery, c.event) && Linked(c.before)
  {
    match a
    case OnDelivery(d, e) => OneDeliveryPerOrder(s, d);
    case _ =>
  }

  lemma ClosedDisputesAreLinked(s: State, a: Action)
    requires Linked(s) && CallOf(s, a).Some?
    ensures forall i :: 0 <= i < |Step(s, a).disputes| ==> Step(s, a).disputes[i].order < |s.orders|
  {
    var c := CallOf(s, a).value;
    CallIsCalled(s, a);
    StepRunsItsCall(s, a);
    HandlersKeepDisputes(c.before, c.order, c.delivery, c.event);
    if a.ApproveDispute? { ApprovalRunsItsCall(s, a.dispute, a.stripe); }
  }

  lemma HandlersKeepDisputes(s: State, o: OrderId, d: Option<DeliveryId>, e: Event)
    requires o < |s.orders| && (d.Some? ==> d.value < |s.deliveries|) && (ForDelivery(e) ==> d.Some?)
    ensures Perform(s, o, d, e).state.disputes == s.disputes
  {
  }

  lemma CallSteps(s: State, a: Action)
    requires Consistent(s) && CallOf(s, a).Some?
    ensures StepsLocally(s, a, Step(s, a))
  {
    var c := CallOf(s, a).value;
    StepRunsItsCall(s, a);
    CallIsCalled(s, a);
    ClosedDisputesAreLinked(s, a);
    HandlerBeside(s, c.before, c.order, c.delivery, c.event);
    BookkeepingAfter(s, AfterCall(c), Step(s, a), c.order, c.event);
    MovesAreLocal(s, a, Step(s, a), c.order, c.event);
  }

  lemma BookkeepingAfter(s: State, s1: State, s': State, o: OrderId, e: Event)
    requires MovesOnly(s, s1, o, e) && s' == s1.(disputes := s'.disputes)
    requires forall i :: 0 <= i < |s'.disputes| ==> s'.disputes[i].order < |s'.orders|
    ensures MovesOnly(s, s', o, e)
  {
    SameViews(s1, s');
    forall p | 0 <= p < |s.orders|
      ensures var c := if p == o then Handled(e) else Untouched;
        ViewOf(s', p) == NextView(ViewOf(s, p), p, c, s.now, s.releaseWindow)
    {
      assert ViewOf(s1, p) == ViewOf(s', p);
    }
  }

  lemma SweepSteps(s: State)
    requires Consistent(s)
    ensures StepsLocally(s, Sweep, Step(s, Sweep))
  {
    var u := Release(s.now, s.orders);
    forall p: OrderId ensures Rows(Update(u, s.entries), p) == Update(u, Rows(s.entries, p)) {
      RowsAfterUpdate(u, s.entries, p);
    }
    UpdateKeepsLinked(u, s.entries, |s.orders|);
  }

  lemma WithdrawSteps(s: State, user: User, payoutReady: bool, transferred: bool)
    requires Consistent(s)
    ensures var a := Withdraw(user, payoutReady, transferred); StepsLocally(s, a, Step(s, a))
  {
    var a := Withdraw(user, payoutReady, transferred);
    WithdrawIsPayout(s, user, payoutReady, transferred);
    if PaysOut(s, a) {
      PayoutKeepsLinked(s, user);
      PayoutOnViews(s, a, AfterPayout(s, user), user);
    } else {
      QuietSteps(s, a, s);
    }
  }

  /** The state after a payout of the user's whole balance. */
  function AfterPayout(s: State, user: User): State {
    var total := Sum(s.entries, InStatus(user, EntryStatus.Available));
    s.(entries := Update(Settle(user, |s.transferLog|), s.entries) + [WithdrawalRow(user, |s.transferLog|, total)],
       transferLog := s.transferLog + [TransferRecord(user, total)])
  }

  lemma WithdrawIsPayout(s: State, user: User, payoutReady: bool, transferred: bool)
    ensures var a := Withdraw(user, payoutReady, transferred);
      && Step(s, a) == (if PaysOut(s, a) then AfterPayout(s, user) else s)
      && forall p :: 0 <= p < |s.orders| ==>
           CauseOf(s, a, p) == if PaysOut(s, a) then Bulk(Settle(user, |s.transferLog|)) else Untouched
  {
  }

  lemma PayoutKeepsLinked(s: State, user: User)
    requires Linked(s)
    ensures Linked(AfterPayout(s, user))
  {
    UpdateKeepsLinked(Settle(user, |s.transferLog|), s.entries, |s.orders|);
  }

  lemma PayoutOnViews(s: State, a: Action, s': State, user: User)
    requires s' == AfterPayout(s, user) && Linked(s')
    requires forall p :: 0 <= p < |s.orders| ==> CauseOf(s, a, p) == Bulk(Settle(user, |s.transferLog|))
    ensures StepsLocally(s, a, s')
  {
    var u := Settle(user, |s.transferLog|);
    var row := WithdrawalRow(user, |s.transferLog|, Sum(s.entries, InStatus(user, EntryStatus.Available)));
    forall p: OrderId ensures Rows(s'.entries, p) == Update(u, Rows(s.entries, p)) {
      RowsAfterUpdate(u, s.entries, p);
      RowsAppend(Update(u, s.entries), row, p);
    }
  }

  lemma PlacingSteps(s: State, placement: Placement)
    requires Consistent(s)
    ensures StepsLocally(s, PlaceOrder(placement), Step(s, PlaceOrder(placement)))
  {
    var s' := Step(s, PlaceOrder(placement));
    if |s'.orders| > |s.orders| {
      NewOrderIsGood(s, placement);
      AppendedSteps(s, PlaceOrder(placement), s', s'.orders[|s.orders|]);
    }
  }

  lemma AppendedSteps(s: State, a: Action, s': State, order: Order)
    requires Linked(s) && a.PlaceOrder?
    requires s' == s.(orders := s.orders + [order], listings := s'.listings)
    requires order.status.Pending?
    requires Good(View(order, None, [], 0), |s.orders|, s.tariff, s.now, s.releaseWindow)
    ensures StepsLocally(s, a, s')
  {
    NoRowsYet(s.entries, |s.orders|);
    NoRefundYet(s.refundLog, |s.orders|);
    NewLinksKept(s, s');
    assert ViewOf(s', |s.orders|) == View(order, None, [], 0);
  }

  lemma NewOrderIsGood(s: State, p: Placement)
    requires ValidCart(s.listings, p.cart, p.choice)
    ensures Good(View(OrderFor(s.listings, p, s.tariff), None, [], 0), |s.orders|, s.tariff, s.now, s.releaseWindow)
  {
  }

  lemma NewLinksKept(s: State, s': State)
    requires Linked(s) && |s.orders| <= |s'.orders|
    requires s' == s.(orders := s'.orders, listings := s'.listings)
    ensures Linked(s')
  {
    forall i | 0 <= i < |s.entries| ensures EntryLinked(s.entries[i], |s'.orders|) {
      assert EntryLinked(s.entries[i], |s.orders|);
    }
  }

  lemma {:induction false} NoRowsYet(entries: seq<Entry>, o: OrderId)
    requires EntriesLinked(entries, o)
    ensures Rows(entries, o) == []
  {
    if entries == [] {
    } else {
      assert EntryLinked(entries[|entries| - 1], o);
      NoRowsYet(entries[..|entries| - 1], o);
    }
  }

  lemma {:induction false} NoRefundYet(log: seq<OrderId>, o: OrderId)
    requires forall i :: 0 <= i < |log| ==> log[i] < o
    ensures Refunds(log, o) == 0
  {
    if log == [] {
    } else {
      NoRefundYet(log[..|log| - 1], o);
    }
  }

  lemma QuietStepIsLinked(s: State, a: Action)
    requires Linked(s) && CallOf(s, a).None? && !a.Sweep? && !a.Withdraw? && !a.PlaceOrder?
    ensures Linked(Step(s, a))
  {
    if CallsOrIdles(a) {
      IdleStep(s, a);
    } else if a.FileDispute? {
      FilingWithoutCall(s, a.order, a.caller, a.kind, a.proof, a.description, a.stripe);
    } else {
      PlainStepIsLinked(s, a);
    }
  }

  lemma PlainStepIsLinked(s: State, a: Action)
    requires Linked(s) && !CallsOrIdles(a) && !a.FileDispute? && !a.Sweep? && !a.Withdraw? && !a.PlaceOrder?
    ensures Linked(Step(s, a))
  {
    match a
    case BeginCancel(o, caller) =>
    case BeginFailure(o, intent) =>
    case ChargeDispute(o, id) =>
    case CloseDispute(i, reject) =>
    case _ =>
  }

  lemma QuietSteps(s: State, a: Action, s': State)
    requires Linked(s') && SameRows(s, s')
    requires forall p :: 0 <= p < |s.orders| ==> CauseOf(s, a, p) == Untouched
    ensures StepsLocally(s, a, s')
  {
    SameViews(s, s');
  }

  /** One step of the whole system is one local transition of each order. */
  lemma StepIsLocal(s: State, a: Action)
    requires Consistent(s)
    ensures StepsLocally(s, a, Step(s, a))
  {
    if CallOf(s, a).Some? { CallSteps(s, a); }
    else {
      match a
      case Sweep => SweepSteps(s);
      case Withdraw(user, payoutReady, transferred) => WithdrawSteps(s, user, payoutReady, transferred);
      case PlaceOrder(p) => PlacingSteps(s, p);
      case _ =>
        StepWithoutCall(s, a);
        QuietStepIsLinked(s, a);
        QuietSteps(s, a, Step(s, a));
    }
  }

  // ---- The invariant in every run ----

  lemma NextViewIsGood(v: View, o: OrderId, c: Cause, tariff: Tariff, now: Time, now': Time, window: nat)
    requires Good(v, o, tariff, now, window) && now <= now'
    requires c.Bulk? && c.update.Release? ==> c.update.now == now
    requires c.Bulk? ==> !c.update.Reverse?
    ensures Good(NextView(v, o, c, now, window), o, tariff, now', window)
  {
    match c
    case Untouched =>
    case Handled(e) => if ForDelivery(e) ==> v.delivery.Some? { HandlersKeepGood(e, v, o, tariff, now, window); }
    case Bulk(u) => BulkKeepsRows(v.rows, v.delivery, u, now, window); UpdateKeepsIdentities(u, v.rows);
  }

  lemma BulkKeepsRows(rows: seq<Entry>, d: Option<DeliveryRow>, u: BulkUpdate, now: Time, window: nat)
    requires RowsOk(rows, d, now, window) && !u.Reverse? && (u.Release? ==> u.now == now)
    ensures RowsOk(Update(u, rows), d, now, window)
  {
    forall i | 0 <= i < |rows| ensures RowOk(Update(u, rows)[i], d, now, window) {
      assert RowOk(rows[i], d, now, window);
    }
  }

  lemma StepKeepsConsistent(s: State, a: Action)
    requires Consistent(s)
    ensures Consistent(Step(s, a))
  {
    StepIsLocal(s, a);
    var s' := Step(s, a);
    forall p | 0 <= p < |s'.orders| ensures Good(ViewOf(s', p), p, s'.tariff, s'.now, s'.releaseWindow) {
      if p < |s.orders| {
        NextViewIsGood(ViewOf(s, p), p, CauseOf(s, a, p), s.tariff, s.now, s'.now, s.releaseWindow);
      } else {
        NextViewIsGood(ViewOf(s', p), p, Untouched, s.tariff, s.now, s'.now, s.releaseWindow);
      }
    }
  }

  /** In every reachable state every order's status, delivery, prices, refunds and ledger rows are legal together. */
  lemma {:induction false} EveryRunIsConsistent(s: State, actions: seq<Action>)
    requires Consistent(s)
    ensures Consistent(Run(s, actions))
  {
    if actions == [] {
    } else {
      var n := |actions| - 1;
      EveryRunIsConsistent(s, actions[..n]);
      StepKeepsConsistent(Run(s, actions[..n]), actions[n]);
    }
  }

  /** No step changes the parties, items or prices of an order, nor holds its stock again. */
  lemma TermsStay(s: State, a: Action, o: OrderId)
    requires Consistent(s) && o < |s.orders|
    ensures o < |Step(s, a).orders| && SameTerms(s.orders[o], Step(s, a).orders[o])
  {
    StepIsLocal(s, a);
    var v, c := ViewOf(s, o), CauseOf(s, a, o);
    assert ViewOf(Step(s, a), o) == NextView(v, o, c, s.now, s.releaseWindow);
    if c.Handled? && (ForDelivery(c.event) ==> v.delivery.Some?) { TermsKept(c.event, v, o, s.now, s.releaseWindow); }
  }
}
