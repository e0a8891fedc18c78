/** Disputes and chargebacks: what they record, and the one way an order leaves PENDING for REFUNDED. */
module Disputes {
  import opened Domain
  import opened Lifecycle
  import opened Marketplace
  import opened Consistency
  import opened Views
  import opened Runs
  import opened Finality
  import opened Timers
  import opened Transitions

  // ---- How the dispute table may change ----

  /** Order, kind and request of a dispute never change, and a granted amount is never replaced. */
  predicate SameDispute(a: Dispute, b: Dispute) {
    && a.order == b.order && a.kind == b.kind && a.refundRequested == b.refundRequested
    && (a.refundCents.Some? ==> b.refundCents == a.refundCents)
  }

  /** A buyer's dispute is about an order past PENDING; Stripe's are chargebacks. */
  predicate NewDispute(s: State, d: Dispute) {
    && d.order < |s.orders|
    && (d.refundCents.Some? ==> d.refundCents.value == s.orders[d.order].terms.buyerTotalCents)
    && (d.kind.Chargeback? <==> d.stripe.Some?)
    && (!d.kind.Chargeback? ==> !s.orders[d.order].status.Pending?)
  }

  predicate Evolved(s: State, a: Action, disputes: seq<Dispute>) {
    && |s.disputes| <= |disputes|
    && (forall i :: 0 <= i < |s.disputes| ==>
          && SameDispute(s.disputes[i], disputes[i])
          && (disputes[i].status != s.disputes[i].status || disputes[i].refundCents != s.disputes[i].refundCents ==>
                (a.ApproveDispute? || a.CloseDispute?) && a.dispute == i)
          && (disputes[i].refundCents != s.disputes[i].refundCents ==>
                s.disputes[i].order < |s.orders|
                && disputes[i].refundCents == Some(s.orders[s.disputes[i].order].terms.buyerTotalCents)))
    && (forall i :: |s.disputes| <= i < |disputes| ==> NewDispute(s, disputes[i]))
  }

  lemma FiledIsNew(s: State, o: OrderId, caller: User, kind: DisputeKind, proof: bool, description: bool)
    requires o < |s.orders| && FilingError(s, o, caller, kind, proof, description).None?
    ensures var disputes := Filed(s, o, kind).disputes;
      |disputes| == |s.disputes| + 1 && disputes[..|s.disputes|] == s.disputes && NewDispute(s, disputes[|s.disputes|])
  {
  }

  /** Filing adds the dispute row, unless it is refused. */
  lemma FilingAdds(s: State, a: Action)
    requires Linked(s) && a.FileDispute?
    ensures Step(s, a).disputes
         == if a.order < |s.orders| && FilingError(s, a.order, a.caller, a.kind, a.proof, a.description).None?
            then Filed(s, a.order, a.kind).disputes else s.disputes
  {
    if CallOf(s, a).Some? {
      var c := CallOf(s, a).value;
      FilingRunsItsCall(s, a.order, a.caller, a.kind, a.proof, a.description, a.stripe);
      HandlersKeepDisputes(c.before, c.order, c.delivery, c.event);
    } else {
      FilingWithoutCall(s, a.order, a.caller, a.kind, a.proof, a.description, a.stripe);
    }
  }

  lemma FilingEvolves(s: State, a: Action)
    requires Linked(s) && a.FileDispute?
    ensures Evolved(s, a, Step(s, a).disputes)
  {
    FilingAdds(s, a);
    if a.order < |s.orders| && FilingError(s, a.order, a.caller, a.kind, a.proof, a.description).None? {
      FiledIsNew(s, a.order, a.caller, a.kind, a.proof, a.description);
    }
  }

  lemma ApprovalEvolves(s: State, a: Action)
    requires Linked(s) && a.ApproveDispute?
    ensures Evolved(s, a, Step(s, a).disputes)
  {
    if CallOf(s, a).Some? { ApprovalRunsItsCall(s, a.dispute, a.stripe); } else { IdleStep(s, a); }
  }

  lemma CallsKeepDisputes(s: State, a: Action)
    requires CallOf(s, a).Some? && !a.FileDispute? && !a.ApproveDispute?
    ensures Step(s, a).disputes == s.disputes
  {
    var c := CallOf(s, a).value;
    EventRunsItsCall(s, a);
    HandlersKeepDisputes(c.before, c.order, c.delivery, c.event);
  }

  lemma SameDisputesEvolve(s: State, a: Action)
    ensures Evolved(s, a, s.disputes)
  {
  }

  lemma DisputesEvolve(s: State, a: Action)
    requires Linked(s)
    ensures Evolved(s, a, Step(s, a).disputes)
  {
    SameDisputesEvolve(s, a);
    if a.FileDispute? { FilingEvolves(s, a); }
    else if a.ApproveDispute? { ApprovalEvolves(s, a); }
    else if CallOf(s, a).Some? { CallsKeepDisputes(s, a); }
    else if CallsOrIdles(a) { IdleStep(s, a); }
    else if a.ChargeDispute? { ChargeEvolves(s, a.order, a.stripeDispute); }
    else { PlainStepEvolves(s, a); }
  }

  lemma ChargeEvolves(s: State, o: OrderId, stripeDispute: StripeDispute)
    ensures Evolved(s, ChargeDispute(o, stripeDispute), Step(s, ChargeDispute(o, stripeDispute)).disputes)
  {
    var disputes := Charged(s.disputes, o, stripeDispute);
    var a := ChargeDispute(o, stripeDispute);
    assert Step(s, a).disputes == if o >= |s.orders| then s.disputes else disputes;
  }

  lemma PlainStepEvolves(s: State, a: Action)
    requires !CallsOrIdles(a) && !a.FileDispute? && !a.ChargeDispute?
    ensures Evolved(s, a, Step(s, a).disputes)
  {
    SameDisputesEvolve(s, a);
    if a.PlaceOrder? { assert Step(s, a) == Place(s, a.placement).state; }
  }

  // ---- What a claim is answered ----

  function Ruling(kind: DisputeKind, d: Option<DeliveryRow>): DisputeStatus {
    if kind.Subjective? then Rejected
    else if RefundedAtOnce(kind, d) then AutoRefunded
    else AdminReview
  }

  /** A buyer's claim is taken in exactly when it stands, and otherwise changes nothing at all. */
  lemma ClaimIsTakenExactlyWhen(s: State, a: Action)
    requires Linked(s) && a.FileDispute?
    ensures Handle(s, a).outcome.Done? <==>
      a.order < |s.orders| && ClaimStands(s, a.order, a.caller, a.kind, a.proof, a.description)
    ensures !Handle(s, a).outcome.Done? ==> Step(s, a) == s
  {
    if a.order < |s.orders| {
      FilingStands(s, a.order, a.caller, a.kind, a.proof, a.description);
      FilingAnswers(s, a.order, a.caller, a.kind, a.proof, a.description, a.stripe);
    }
  }

  lemma FilingAnswers(s: State, o: OrderId, caller: User, kind: DisputeKind, proof: bool, description: bool,
                      stripe: StripeReply)
    requires o < |s.orders|
    ensures var reply := File(s, o, caller, kind, proof, description, stripe);
      && (reply.outcome.Done? <==> FilingError(s, o, caller, kind, proof, description).None?)
      && (!reply.outcome.Done? ==> reply.state == s)
  {
  }

  /** How a claim that stands is answered, by its kind and the delivery row: one new row with that ruling; the order is
      refunded at once, with its whole total granted, exactly for a wrong order, or for one never received whose
      hand-over is not proved by a confirmation or the absence procedure. */
  lemma ClaimsAreRuledByKind(s: State, a: Action)
    requires Consistent(s) && a.FileDispute? && Handle(s, a).outcome.Done?
    ensures a.order < |s.orders| && a.order < |Step(s, a).orders|
    ensures var order, d := s.orders[a.order], LatestRow(s, a.order);
      var atOnce := a.kind.WrongOrder? || (a.kind.NeverReceived? && !HandOverProved(d));
      && Step(s, a).disputes
         == s.disputes + [Dispute(a.order, a.kind, Ruling(a.kind, d), !a.kind.Subjective? && !a.kind.FalseAllergens?,
                                  if atOnce then Some(order.terms.buyerTotalCents) else None, None)]
      && (Step(s, a).orders[a.order].status.Refunded? <==> atOnce || order.status.Refunded?)
  {
    ClaimIsTakenExactlyWhen(s, a);
    FilingStands(s, a.order, a.caller, a.kind, a.proof, a.description);
    FilingAdds(s, a);
    CancelledExactlyWhen(s, a, a.order);
    if s.orders[a.order].status.Refunded? { RefundedStays(s, a, a.order); }
    RulingIsTheDecision(a.kind, LatestRow(s, a.order));
  }

  lemma RulingIsTheDecision(kind: DisputeKind, d: Option<DeliveryRow>)
    requires !kind.Chargeback?
    ensures DisputeDecision(kind, d) == (Ruling(kind, d), RefundedAtOnce(kind, d))
    ensures AsksRefund(kind) <==> !kind.Subjective? && !kind.FalseAllergens?
  {
  }

  lemma RefundedStays(s: State, a: Action, o: OrderId)
    requires Consistent(s) && a.FileDispute? && o < |s.orders| && s.orders[o].status.Refunded?
    ensures o < |Step(s, a).orders| && Step(s, a).orders[o].status.Refunded?
  {
    StepIsItsEvent(s, a, o);
    if EventOn(s, a, o).Some? { RefundStaysRefunded(ViewOf(s, o), o, a.stripe, s.now, s.releaseWindow); }
  }

  lemma RefundStaysRefunded(v: View, o: OrderId, stripe: StripeReply, now: Time, window: nat)
    ensures OrderAfter(RefundForDispute(stripe), v, o, now, window).status.Refunded?
  {
  }

  /** In a reachable state hand-over is proved exactly when the delivery is DELIVERED, so a claim of never having
      received the food is refunded at once exactly while it is not. */
  lemma NeverReceivedIsRefundedExactlyWhen(s: State, a: Action)
    requires Reachable(s) && a.FileDispute? && a.kind.NeverReceived? && Handle(s, a).outcome.Done?
    ensures a.order < |s.orders| && a.order < |Step(s, a).orders|
    ensures !s.orders[a.order].status.Refunded? ==>
      (Step(s, a).orders[a.order].status.Refunded? <==>
         !(LatestRow(s, a.order).Some? && LatestRow(s, a.order).value.status.Delivered?))
  {
    ReachableIsConsistent(s);
    ClaimsAreRuledByKind(s, a);
    assert Good(ViewOf(s, a.order), a.order, s.tariff, s.now, s.releaseWindow);
  }

  /** An admin's approval grants the whole total unless an amount was granted before, a closing rejects or resolves,
      and Stripe's first word of a chargeback opens a review; nothing else in the table moves. */
  lemma DecisionsAreExact(s: State, a: Action)
    requires Linked(s)
    ensures a.ApproveDispute? && a.dispute < |s.disputes| ==>
      var d := s.disputes[a.dispute];
      var granted := if d.refundCents.Some? then d.refundCents else Some(s.orders[d.order].terms.buyerTotalCents);
      Step(s, a).disputes == s.disputes[a.dispute := d.(status := Resolved, refundCents := granted)]
    ensures a.CloseDispute? && a.dispute < |s.disputes| ==>
      Step(s, a).disputes
      == s.disputes[a.dispute := s.disputes[a.dispute].(status := if a.reject then Rejected else Resolved)]
    ensures a.ChargeDispute? && a.order < |s.orders|
            && (forall i :: 0 <= i < |s.disputes| ==> !IsStripeDispute(s.disputes[i], a.stripeDispute.id)) ==>
      Step(s, a).disputes
      == s.disputes + [Dispute(a.order, Chargeback, AdminReview, false, None, Some(a.stripeDispute))]
    ensures !a.FileDispute? && !a.ApproveDispute? && !a.CloseDispute? && !a.ChargeDispute? ==>
      Step(s, a).disputes == s.disputes
  {
    if a.FileDispute? {
    } else if a.ApproveDispute? {
      if a.dispute < |s.disputes| { ApprovalRunsItsCall(s, a.dispute, a.stripe); } else { IdleStep(s, a); }
    } else if CallOf(s, a).Some? {
      CallsKeepDisputes(s, a);
    } else if CallsOrIdles(a) {
      IdleStep(s, a);
    } else {
      PlainDecisions(s, a);
    }
  }

  lemma PlainDecisions(s: State, a: Action)
    requires !CallsOrIdles(a) && !a.FileDispute?
    ensures a.CloseDispute? && a.dispute < |s.disputes| ==>
      Step(s, a).disputes
      == s.disputes[a.dispute := s.disputes[a.dispute].(status := if a.reject then Rejected else Resolved)]
    ensures a.ChargeDispute? && a.order < |s.orders|
            && (forall i :: 0 <= i < |s.disputes| ==> !IsStripeDispute(s.disputes[i], a.stripeDispute.id)) ==>
      Step(s, a).disputes
      == s.disputes + [Dispute(a.order, Chargeback, AdminReview, false, None, Some(a.stripeDispute))]
    ensures !a.CloseDispute? && !a.ChargeDispute? ==> Step(s, a).disputes == s.disputes
  {
    if a.PlaceOrder? { assert Step(s, a) == Place(s, a.placement).state; }
  }

  // ---- Invariants of every run ----

  /** Every dispute on a PENDING order is a chargeback, and every granted refund is of the whole total. */
  predicate DisputesOk(s: State) {
    forall i :: 0 <= i < |s.disputes| ==> DisputeOk(s, s.disputes[i])
  }

  predicate DisputeOk(s: State, d: Dispute) {
    && d.order < |s.orders|
    && (s.orders[d.order].status.Pending? ==> d.kind.Chargeback?)
    && (d.refundCents.Some? ==> d.refundCents.value == s.orders[d.order].terms.buyerTotalCents)
  }

  lemma StepKeepsDisputesOk(s: State, a: Action)
    requires Consistent(s) && DisputesOk(s)
    ensures DisputesOk(Step(s, a))
  {
    var s' := Step(s, a);
    DisputesEvolve(s, a);
    forall i | 0 <= i < |s'.disputes| ensures DisputeOk(s', s'.disputes[i]) {
      if i < |s.disputes| { assert DisputeOk(s, s.disputes[i]); }
      OrderStays(s, a, s'.disputes[i].order);
    }
  }

  lemma OrderStays(s: State, a: Action, o: OrderId)
    requires Consistent(s) && o < |s.orders|
    ensures o < |Step(s, a).orders| && Step(s, a).orders[o].terms == s.orders[o].terms
    ensures Step(s, a).orders[o].status.Pending? ==> s.orders[o].status.Pending?
  {
    TermsStay(s, a, o);
    StepsGoForward(s, a, o);
  }

  /** In every run. */
  lemma {:induction false} DisputesAreSound(s: State, actions: seq<Action>)
    requires Consistent(s) && DisputesOk(s)
    ensures DisputesOk(Run(s, actions))
  {
    if actions == [] {
    } else {
      var n := |actions| - 1;
      DisputesAreSound(s, actions[..n]);
      EveryRunIsConsistent(s, actions[..n]);
      StepKeepsDisputesOk(Run(s, actions[..n]), actions[n]);
    }
  }

  lemma ReachableDisputesAreSound(s: State)
    requires Reachable(s)
    ensures DisputesOk(s)
  {
    var tariff, window, start, actions :| s == Run(InitialState(tariff, window, start), actions);
    DisputesAreSound(InitialState(tariff, window, start), actions);
  }

  predicate StripeIdsDiffer(disputes: seq<Dispute>) {
    forall i, j :: 0 <= i < j < |disputes| && disputes[i].stripe.Some? && disputes[j].stripe.Some? ==>
      disputes[i].stripe.value.id != disputes[j].stripe.value.id
  }

  /** A later event about a known chargeback refreshes its payload and never overrides what an admin decided: of every
      existing dispute all but the payload is kept, the Stripe id included, and the payload changes only for the dispute
      the event is about. */
  lemma WebhooksNeverResolve(s: State, o: OrderId, stripeDispute: StripeDispute, i: nat)
    requires i < |s.disputes|
    ensures var disputes := Step(s, ChargeDispute(o, stripeDispute)).disputes;
      && i < |disputes|
      && disputes[i].(stripe := s.disputes[i].stripe) == s.disputes[i]
      && (disputes[i].stripe.Some? <==> s.disputes[i].stripe.Some?)
      && (s.disputes[i].stripe.Some? ==> disputes[i].stripe.value.id == s.disputes[i].stripe.value.id)
      && (!IsStripeDispute(s.disputes[i], stripeDispute.id) ==> disputes[i] == s.disputes[i])
    ensures o < |s.orders| && StripeIdsDiffer(s.disputes) && IsStripeDispute(s.disputes[i], stripeDispute.id) ==>
      Step(s, ChargeDispute(o, stripeDispute)).disputes
      == s.disputes[i := s.disputes[i].(stripe := Some(stripeDispute))]
  {
    var known := FindStripeDispute(s.disputes, stripeDispute.id);
    assert Step(s, ChargeDispute(o, stripeDispute)).disputes
        == if o < |s.orders| then Charged(s.disputes, o, stripeDispute) else s.disputes;
    if StripeIdsDiffer(s.disputes) && IsStripeDispute(s.disputes[i], stripeDispute.id) {
      assert known == Some(i);
    }
  }

  predicate SameStripeId(a: Dispute, b: Dispute) {
    (a.stripe.Some? <==> b.stripe.Some?) && (a.stripe.Some? ==> a.stripe.value.id == b.stripe.value.id)
  }

  /** The ids of old disputes stay, and at most one dispute comes, with a new id if it has one. */
  predicate IdsEvolve(before: seq<Dispute>, after: seq<Dispute>) {
    && |before| <= |after| <= |before| + 1
    && (forall i :: 0 <= i < |before| ==> SameStripeId(before[i], after[i]))
    && (|after| > |before| && after[|before|].stripe.Some? ==>
          forall i :: 0 <= i < |before| ==> !IsStripeDispute(before[i], after[|before|].stripe.value.id))
  }

  lemma IdsKeepDiffering(before: seq<Dispute>, after: seq<Dispute>)
    requires StripeIdsDiffer(before) && IdsEvolve(before, after)
    ensures StripeIdsDiffer(after)
  {
    forall i, j | 0 <= i < j < |after| && after[i].stripe.Some? && after[j].stripe.Some?
      ensures after[i].stripe.value.id != after[j].stripe.value.id
    {
      assert SameStripeId(before[i], after[i]);
      if j < |before| { assert SameStripeId(before[j], after[j]); }
      else { assert !IsStripeDispute(before[i], after[j].stripe.value.id); }
    }
  }

  lemma FilingIds(s: State, a: Action)
    requires Linked(s) && a.FileDispute?
    ensures IdsEvolve(s.disputes, Step(s, a).disputes)
  {
    FilingAdds(s, a);
  }

  lemma StepEvolvesIds(s: State, a: Action)
    requires Linked(s)
    ensures IdsEvolve(s.disputes, Step(s, a).disputes)
  {
    if a.FileDispute? { FilingIds(s, a); }
    else if a.ApproveDispute? {
      if CallOf(s, a).Some? { ApprovalRunsItsCall(s, a.dispute, a.stripe); } else { IdleStep(s, a); }
    }
    else if CallOf(s, a).Some? { CallsKeepDisputes(s, a); }
    else if CallsOrIdles(a) { IdleStep(s, a); }
    else { PlainStepEvolvesIds(s, a); }
  }

  lemma PlainStepEvolvesIds(s: State, a: Action)
    requires !CallsOrIdles(a) && !a.FileDispute?
    ensures IdsEvolve(s.disputes, Step(s, a).disputes)
  {
    if a.ChargeDispute? { ChargeEvolvesIds(s, a.order, a.stripeDispute); }
    else if !a.CloseDispute? { PlainDecisions(s, a); }
  }

  lemma ChargeEvolvesIds(s: State, o: OrderId, stripeDispute: StripeDispute)
    ensures IdsEvolve(s.disputes, Step(s, ChargeDispute(o, stripeDispute)).disputes)
  {
    assert Step(s, ChargeDispute(o, stripeDispute)).disputes
        == if o < |s.orders| then Charged(s.disputes, o, stripeDispute) else s.disputes;
  }

  /** One dispute per Stripe id in every run, so an event is about one dispute only. */
  lemma {:induction false} StripeIdsStayUnique(s: State, actions: seq<Action>)
    requires Consistent(s) && StripeIdsDiffer(s.disputes)
    ensures StripeIdsDiffer(Run(s, actions).disputes)
  {
    if actions == [] {
    } else {
      var n := |actions| - 1;
      var t := Run(s, actions[..n]);
      StripeIdsStayUnique(s, actions[..n]);
      EveryRunIsConsistent(s, actions[..n]);
      StepEvolvesIds(t, actions[n]);
      IdsKeepDiffering(t.disputes, Step(t, actions[n]).disputes);
    }
  }

  // ---- PENDING to REFUNDED ----

  lemma ApprovalRefunds(s: State, i: nat, stripe: StripeReply)
    requires Consistent(s) && i < |s.disputes|
    ensures var o := s.disputes[i].order; var s' := Step(s, ApproveDispute(i, stripe));
      o < |s.orders| && o < |s'.orders| && s'.orders[o].status.Refunded?
  {
    var a, o := ApproveDispute(i, stripe), s.disputes[i].order;
    StepIsLocal(s, a);
    assert ViewOf(Step(s, a), o) == NextView(ViewOf(s, o), o, CauseOf(s, a, o), s.now, s.releaseWindow);
  }

  /** The input on which it fails: recording a chargeback does not look at the order's status, and neither does
      approving it, so an order still PENDING in the table ends REFUNDED. */
  lemma ChargebackCanRefundPending(s: State, o: OrderId, stripeDispute: StripeDispute, stripe: StripeReply)
    requires Consistent(s) && o < |s.orders| && s.orders[o].status.Pending?
    requires FindStripeDispute(s.disputes, stripeDispute.id).None?
    ensures var s' := Run(s, [ChargeDispute(o, stripeDispute), ApproveDispute(|s.disputes|, stripe)]);
      o < |s'.orders| && s'.orders[o].status.Refunded?
  {
    var charge := ChargeDispute(o, stripeDispute);
    StepKeepsConsistent(s, charge);
    ApprovalRefunds(Step(s, charge), |s.disputes|, stripe);
    RunOfTwo(s, charge, ApproveDispute(|s.disputes|, stripe));
  }

  /** It is the only way: a step takes an order from PENDING to REFUNDED exactly when it approves a dispute about it. */
  lemma PendingIsRefundedExactlyWhen(s: State, a: Action, o: OrderId)
    requires Consistent(s) && o < |s.orders| && s.orders[o].status.Pending?
    ensures o < |Step(s, a).orders|
    ensures Step(s, a).orders[o].status.Refunded? <==>
      a.ApproveDispute? && a.dispute < |s.disputes| && s.disputes[a.dispute].order == o
  {
    StepIsLocal(s, a);
    assert ViewOf(Step(s, a), o) == NextView(ViewOf(s, o), o, CauseOf(s, a, o), s.now, s.releaseWindow);
    PendingCause(s, a, o);
    var c := CauseOf(s, a, o);
    if c.Handled? && !ForDelivery(c.event) { PendingHandlers(ViewOf(s, o), o, c.event, s.now, s.releaseWindow); }
    assert Good(ViewOf(s, o), o, s.tariff, s.now, s.releaseWindow);
  }

  /** In a reachable state the dispute that does it is a chargeback. */
  lemma OnlyChargebacksRefundPending(s: State, a: Action, o: OrderId)
    requires Reachable(s) && o < |s.orders| && s.orders[o].status.Pending?
    ensures o < |Step(s, a).orders|
    ensures Step(s, a).orders[o].status.Refunded? ==>
      a.ApproveDispute? && a.dispute < |s.disputes| && s.disputes[a.dispute].order == o
      && s.disputes[a.dispute].kind.Chargeback?
  {
    ReachableIsConsistent(s);
    ReachableDisputesAreSound(s);
    PendingIsRefundedExactlyWhen(s, a, o);
    assert a.ApproveDispute? && a.dispute < |s.disputes| ==> DisputeOk(s, s.disputes[a.dispute]);
  }

  lemma PendingHandlers(v: View, o: OrderId, e: Event, now: Time, window: nat)
    requires v.order.status.Pending? && !ForDelivery(e)
    ensures var eff := EffectOf(e, v, o, now, window);
      (eff.Some? && eff.value.order.status.Refunded?) <==> e.RefundForDispute?
  {
  }

  /** The only dispute refund a step runs on a PENDING order is an approval's: filing rejects such an order. */
  lemma PendingCause(s: State, a: Action, o: OrderId)
    requires Linked(s) && o < |s.orders| && s.orders[o].status.Pending?
    ensures (CauseOf(s, a, o).Handled? && CauseOf(s, a, o).event.RefundForDispute?) <==>
      a.ApproveDispute? && a.dispute < |s.disputes| && s.disputes[a.dispute].order == o
  {
  }
}
