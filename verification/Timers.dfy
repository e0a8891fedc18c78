/** Timers fire twice (in process and as durable jobs), late, or out of place; every run absorbs it. */
module Timers {
  import opened Domain
  import opened Lifecycle
  import opened Marketplace
  import opened Consistency
  import opened Views
  import opened Runs

  // ---- An order only moves forward ----

  function Phase(order: Order): nat {
    match order.status
    case Pending => 0
    case Confirmed => 1
    case Preparing => 2
    case Ready => if order.choice.Delivery? then 3 else 5
    case NoDriverAvailable => 4
    case _ => 6
  }

  predicate Abandoned(d: Option<DeliveryRow>) {
    d.Some? && d.value.status.Failed?
  }

  /** Phases never go back, and an abandoned delivery stays so. */
  predicate Forward(v: View, v': View) {
    && Phase(v.order) <= Phase(v'.order)
    && (Abandoned(v.delivery) ==> Abandoned(v'.delivery))
  }

  lemma PickUpGoesForward(v: View, o: OrderId, e: Event, now: Time, window: nat)
    requires Legal(v.order, v.delivery, o) && v.delivery.Some? && e.PickUp?
    ensures var eff := EffectOf(e, v, o, now, window); eff.Some? ==> Forward(v, After(v, o, eff.value))
  {
  }

  lemma DropOffsGoForward(v: View, o: OrderId, e: Event, now: Time, window: nat)
    requires Legal(v.order, v.delivery, o) && v.delivery.Some? && (e.DeliverByScan? || e.DeliverAbsent?)
    ensures var eff := EffectOf(e, v, o, now, window); eff.Some? ==> Forward(v, After(v, o, eff.value))
  {
  }

  lemma ClaimsGoForward(v: View, o: OrderId, e: Event, now: Time, window: nat)
    requires Legal(v.order, v.delivery, o) && v.delivery.Some?
    requires e.Claim? || e.Arrive?
    ensures var eff := EffectOf(e, v, o, now, window); eff.Some? ==> Forward(v, After(v, o, eff.value))
  {
  }

  lemma FailuresGoForward(v: View, o: OrderId, e: Event, now: Time, window: nat)
    requires Legal(v.order, v.delivery, o) && v.delivery.Some?
    requires e.DriverTimeout? || e.ReportUnavailable?
    ensures var eff := EffectOf(e, v, o, now, window); eff.Some? ==> Forward(v, After(v, o, eff.value))
  {
  }

  lemma DriverEventsGoForward(v: View, o: OrderId, e: Event, now: Time, window: nat)
    requires Legal(v.order, v.delivery, o) && ForDelivery(e) && v.delivery.Some?
    ensures var eff := EffectOf(e, v, o, now, window); eff.Some? ==> Forward(v, After(v, o, eff.value))
  {
    if e.Claim? || e.Arrive? { ClaimsGoForward(v, o, e, now, window); }
    else if e.DriverTimeout? || e.ReportUnavailable? { FailuresGoForward(v, o, e, now, window); }
    else if e.PickUp? { PickUpGoesForward(v, o, e, now, window); }
    else { DropOffsGoForward(v, o, e, now, window); }
  }

  lemma OrderEventsGoForward(v: View, o: OrderId, e: Event, now: Time, window: nat)
    requires Legal(v.order, v.delivery, o) && !ForDelivery(e)
    ensures var eff := EffectOf(e, v, o, now, window); eff.Some? ==> Forward(v, After(v, o, eff.value))
  {
  }

  lemma StepsGoForward(s: State, a: Action, o: OrderId)
    requires Consistent(s) && o < |s.orders|
    ensures o < |Step(s, a).orders| && Forward(ViewOf(s, o), ViewOf(Step(s, a), o))
  {
    StepIsLocal(s, a);
    assert Good(ViewOf(s, o), o, s.tariff, s.now, s.releaseWindow);
    var c := CauseOf(s, a, o);
    assert ViewOf(Step(s, a), o) == NextView(ViewOf(s, o), o, c, s.now, s.releaseWindow);
    if c.Handled? {
      if !ForDelivery(c.event) { OrderEventsGoForward(ViewOf(s, o), o, c.event, s.now, s.releaseWindow); }
      else if LatestRow(s, o).Some? { DriverEventsGoForward(ViewOf(s, o), o, c.event, s.now, s.releaseWindow); }
    }
  }

  // ---- Each timer takes effect at most once ----

  datatype Timer = NoDriver(order: OrderId) | NoResponse(order: OrderId) | DriverGone(order: OrderId)

  /** A firing of the timer that passed all of its guards. */
  predicate Fires(t: Timer, s: State, a: Action) {
    && Handle(s, a).outcome.Done?
    && match t
       case NoDriver(o) => a == OnOrder(o, NoDriverTimeout)
       case NoResponse(o) => a.OnOrder? && a.order == o && a.event.AutoCancelNoResponse?
       case DriverGone(o) =>
         a.OnDelivery? && a.event.DriverTimeout? && a.delivery < |s.deliveries| && s.deliveries[a.delivery].order == o
  }

  predicate Spent(t: Timer, s: State) {
    t.order < |s.orders|
    && match t
       case NoDriver(o) => Phase(s.orders[o]) >= 4
       case NoResponse(o) => Phase(s.orders[o]) >= 5
       case DriverGone(o) => Abandoned(LatestRow(s, o))
  }

  lemma FiringSpends(t: Timer, s: State, a: Action)
    requires Consistent(s) && Fires(t, s, a)
    ensures !Spent(t, s) && Spent(t, Step(s, a))
  {
    match t
    case NoDriver(o) => NoDriverSpends(s, o);
    case NoResponse(o) => NoResponseSpends(s, o, a.event.stripe);
    case DriverGone(o) => DriverTimeoutAbandons(s, a.delivery, a.event);
  }

  lemma NoDriverSpends(s: State, o: OrderId)
    requires Fires(NoDriver(o), s, OnOrder(o, NoDriverTimeout))
    ensures !Spent(NoDriver(o), s) && Spent(NoDriver(o), Step(s, OnOrder(o, NoDriverTimeout)))
  {
  }

  lemma NoResponseSpends(s: State, o: OrderId, stripe: StripeReply)
    requires Fires(NoResponse(o), s, OnOrder(o, Event.AutoCancelNoResponse(stripe)))
    ensures !Spent(NoResponse(o), s) && Spent(NoResponse(o), Step(s, OnOrder(o, Event.AutoCancelNoResponse(stripe))))
  {
  }

  lemma DriverTimeoutAbandons(s: State, d: DeliveryId, e: Event)
    requires Consistent(s) && d < |s.deliveries| && e.DriverTimeout?
    requires Handle(s, OnDelivery(d, e)).outcome.Done?
    ensures var o := s.deliveries[d].order; var s' := Step(s, OnDelivery(d, e));
      !Abandoned(LatestRow(s, o)) && o < |s'.orders| && Abandoned(LatestRow(s', o))
  {
    var o, a := s.deliveries[d].order, OnDelivery(d, e);
    OneDeliveryPerOrder(s, d);
    DoneTimeoutFails(s, d, e);
    StepIsLocal(s, a);
    assert ViewOf(Step(s, a), o) == NextView(ViewOf(s, o), o, CauseOf(s, a, o), s.now, s.releaseWindow);
  }

  lemma DoneTimeoutFails(s: State, d: DeliveryId, e: Event)
    requires Linked(s) && d < |s.deliveries| && e.DriverTimeout?
    requires LatestDelivery(s.deliveries, s.deliveries[d].order) == Some(d)
    requires Handle(s, OnDelivery(d, e)).outcome.Done?
    ensures var o := s.deliveries[d].order; var v := ViewOf(s, o);
      && CauseOf(s, OnDelivery(d, e), o) == Handled(e)
      && !Abandoned(v.delivery)
      && Abandoned(NextView(v, o, Handled(e), s.now, s.releaseWindow).delivery)
  {
  }

  lemma SpentStays(t: Timer, s: State, a: Action)
    requires Consistent(s) && Spent(t, s)
    ensures Spent(t, Step(s, a))
  {
    StepsGoForward(s, a, t.order);
  }

  function Firings(t: Timer, s: State, actions: seq<Action>): nat {
    if actions == [] then 0
    else
      var n := |actions| - 1;
      Firings(t, s, actions[..n]) + if Fires(t, Run(s, actions[..n]), actions[n]) then 1 else 0
  }

  lemma {:induction false} FiringsAreSpent(t: Timer, s: State, actions: seq<Action>)
    requires Consistent(s)
    ensures Firings(t, s, actions) <= if Spent(t, Run(s, actions)) then 1 else 0
  {
    if actions == [] {
    } else {
      var n := |actions| - 1;
      FiringsAreSpent(t, s, actions[..n]);
      EveryRunIsConsistent(s, actions[..n]);
      if Fires(t, Run(s, actions[..n]), actions[n]) { FiringSpends(t, Run(s, actions[..n]), actions[n]); }
      else if Spent(t, Run(s, actions[..n])) { SpentStays(t, Run(s, actions[..n]), actions[n]); }
    }
  }

  /** However often and wherever a timer fires in a run, it takes effect at most once per order. */
  lemma TimersTakeEffectAtMostOnce(t: Timer, s: State, actions: seq<Action>)
    requires Consistent(s)
    ensures Firings(t, s, actions) <= 1
  {
    FiringsAreSpent(t, s, actions);
  }

  // ---- Ineffective firings can be erased ----

  predicate IsTimer(a: Action) {
    (a.OnOrder? && (a.event.NoDriverTimeout? || a.event.AutoCancelNoResponse?))
    || (a.OnDelivery? && a.event.DriverTimeout?)
  }

  /** The run without the timer firings that took no effect. */
  function Erased(s: State, actions: seq<Action>): seq<Action> {
    if actions == [] then []
    else
      var n := |actions| - 1;
      Erased(s, actions[..n])
      + if IsTimer(actions[n]) && !Handle(Run(s, actions[..n]), actions[n]).outcome.Done? then [] else [actions[n]]
  }

  lemma IneffectiveTimersDoNothing(s: State, a: Action)
    requires Consistent(s) && IsTimer(a) && !Handle(s, a).outcome.Done?
    ensures Step(s, a) == s
  {
  }

  lemma {:induction false} DuplicateTimersAreHarmless(s: State, actions: seq<Action>)
    requires Consistent(s)
    ensures Run(s, Erased(s, actions)) == Run(s, actions)
  {
    if actions == [] {
    } else {
      var n := |actions| - 1;
      var kept := Erased(s, actions[..n]);
      DuplicateTimersAreHarmless(s, actions[..n]);
      EveryRunIsConsistent(s, actions[..n]);
      if IsTimer(actions[n]) && !Handle(Run(s, actions[..n]), actions[n]).outcome.Done? {
        IneffectiveTimersDoNothing(Run(s, actions[..n]), actions[n]);
        assert kept + [] == kept;
      } else {
        assert (kept + [actions[n]])[..|kept|] == kept;
      }
    }
  }
}
