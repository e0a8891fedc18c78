/** Orders and strikes together: handlers penalise, and suspended accounts are turned away. */
module Discipline {
  import opened Domain
  import opened Lifecycle
  import opened Marketplace
  import opened Consistency
  import opened Views
  import opened Runs
  import S = Strikes

  // ---- Which step penalises whom ----

  function SellerStrike(s: State, o: OrderId, points: int, reason: string): S.Action
    requires o < |s.orders|
  {
    S.Add(S.Incident(s.orders[o].terms.seller, S.Seller, points, reason, None, Some(o), None))
  }

  /** The strike a successful step adds, seen from the state it started in. */
  function Penalty(s: State, a: Action, outcome: Outcome): Option<S.Action> {
    if !outcome.Done? then None
    else
      match a
      case OnOrder(o, CannotProvide(_, _)) =>
        if o < |s.orders| then Some(SellerStrike(s, o, 1, "SELLER_CANNOT_PROVIDE")) else None
      case OnDelivery(d, ReportUnavailable(_, _, _)) =>
        if d < |s.deliveries| && s.deliveries[d].order < |s.orders|
        then Some(SellerStrike(s, s.deliveries[d].order, 1, "SELLER_UNAVAILABLE")) else None
      case OnDelivery(d, DriverTimeout(_)) =>
        if d < |s.deliveries| && s.deliveries[d].driver.Some?
        then Some(S.Exclude(s.deliveries[d].driver.value, S.Driver, "DRIVER_DISAPPEARED_AFTER_PICKUP",
                            Some(s.deliveries[d].order), Some(d)))
        else None
      case FileDispute(o, _, kind, _, _, _) =>
        if kind.WrongOrder? && o < |s.orders| then Some(SellerStrike(s, o, 1, "WRONG_ORDER")) else None
      case _ => None
  }

  /** A best-effort call: `struck` tells whether it went through. */
  function Punished(r: S.Register, penalty: Option<S.Action>, struck: bool): S.Register {
    if penalty.Some? && struck then S.Step(r, penalty.value) else r
  }

  /** The two admin confirmations: a serious strike on the seller or the buyer, once per order. */
  function AllergenStrike(s: State, i: nat): S.Action
    requires i < |s.disputes| && s.disputes[i].order < |s.orders|
  {
    var o := s.disputes[i].order;
    S.Add(S.Incident(s.orders[o].terms.seller, S.Seller, 2, "ALLERGEN_FALSE_DECLARATION", Some(i), Some(o), None))
  }

  function FraudStrike(s: State, i: nat): S.Action
    requires i < |s.disputes| && s.disputes[i].order < |s.orders|
  {
    var o := s.disputes[i].order;
    var source := if s.disputes[i].stripe.Some? then s.disputes[i].stripe.value.id else i;
    S.Add(S.Incident(s.orders[o].terms.buyer, S.Buyer, 2, "FRAUDULENT_CHARGEBACK", Some(source), Some(o), None))
  }

  // ---- Suspended accounts ----

  /** A suspended buyer, or the seller of the cart, fails the checks before an order is written. */
  function GatePlacement(m: Market, p: Placement): Placement {
    if p.gate.Some? then p
    else if p.buyer in m.register.suspended then p.(gate := Some(Forbidden))
    else if |p.cart| > 0 && p.cart[0].listing in m.shop.listings
            && m.shop.listings[p.cart[0].listing].seller in m.register.suspended then p.(gate := Some(BadRequest))
    else p
  }

  /** The action with the account checks of its handler made on the register. */
  function Gated(m: Market, a: Action): Action {
    match a
    case PlaceOrder(p) => PlaceOrder(GatePlacement(m, p))
    case OnDelivery(d, Claim(driver, eligible)) =>
      OnDelivery(d, Claim(driver, eligible && driver !in m.register.suspended))
    case _ => a
  }

  // ---- The joint system ----

  datatype Market = Market(shop: State, register: S.Register)

  datatype Move =
    | Trade(action: Action, struck: bool)
    | ConfirmAllergen(dispute: nat, struck: bool)
    | ConfirmFraud(dispute: nat, struck: bool)
    | Admin(measure: S.Action)

  /** What a move does to the shop. */
  function ShopSide(m: Market, move: Move): Option<Action> {
    match move
    case Trade(a, _) => Some(Gated(m, a))
    case ConfirmAllergen(i, _) => if i < |m.shop.disputes| then Some(CloseDispute(i, false)) else None
    case ConfirmFraud(i, _) => if i < |m.shop.disputes| then Some(CloseDispute(i, false)) else None
    case Admin(_) => None
  }

  /** What a move does to the register: the two share one clock. */
  function RegisterSide(m: Market, move: Move): Option<S.Action> {
    match move
    case Trade(Tick(elapsed), _) => Some(S.Tick(elapsed))
    case Trade(a, struck) =>
      if struck then Penalty(m.shop, Gated(m, a), Handle(m.shop, Gated(m, a)).outcome) else None
    case ConfirmAllergen(i, struck) =>
      if struck && i < |m.shop.disputes| && m.shop.disputes[i].order < |m.shop.orders|
      then Some(AllergenStrike(m.shop, i)) else None
    case ConfirmFraud(i, struck) =>
      if struck && i < |m.shop.disputes| && m.shop.disputes[i].order < |m.shop.orders|
      then Some(FraudStrike(m.shop, i)) else None
    case Admin(a) => if a.Tick? then None else Some(a)
  }

  function Next(m: Market, move: Move): Market {
    var a, k := ShopSide(m, move), RegisterSide(m, move);
    Market(if a.Some? then Step(m.shop, a.value) else m.shop,
           if k.Some? then S.Step(m.register, k.value) else m.register)
  }

  function RunAll(m: Market, moves: seq<Move>): Market {
    if moves == [] then m else Next(RunAll(m, moves[..|moves| - 1]), moves[|moves| - 1])
  }

  // ---- The strikes of the handlers ----

  /** An incident about an order, as it is handed to the strike engine. */
  function About(u: User, role: S.Role, points: int, reason: string, source: Option<nat>, o: OrderId): S.Action {
    S.Add(S.Incident(u, role, points, reason, source, Some(o), None))
  }

  /** What each successful step reports, in full: one point for a seller who cannot deliver or packs a wrong order,
      exclusion for a driver who disappeared, and nothing for anything else. */
  lemma StrikesAreExact(m: Market, a: Action)
    requires Linked(m.shop) && !a.Tick? && Handle(m.shop, Gated(m, a)).outcome.Done?
    ensures var s, r := m.shop, m.register;
      Next(m, Trade(a, true)).register ==
      match a
      case OnOrder(o, CannotProvide(_, _)) =>
        if o < |s.orders|
        then S.Step(r, About(s.orders[o].terms.seller, S.Seller, 1, "SELLER_CANNOT_PROVIDE", None, o)) else r
      case OnDelivery(d, ReportUnavailable(_, _, _)) =>
        if d < |s.deliveries|
        then var o := s.deliveries[d].order;
             S.Step(r, About(s.orders[o].terms.seller, S.Seller, 1, "SELLER_UNAVAILABLE", None, o)) else r
      case FileDispute(o, _, WrongOrder, _, _, _) =>
        if o < |s.orders| then S.Step(r, About(s.orders[o].terms.seller, S.Seller, 1, "WRONG_ORDER", None, o)) else r
      case OnDelivery(d, DriverTimeout(_)) =>
        if d < |s.deliveries| && s.deliveries[d].driver.Some?
        then S.Step(r, S.Exclude(s.deliveries[d].driver.value, S.Driver, "DRIVER_DISAPPEARED_AFTER_PICKUP",
                                 Some(s.deliveries[d].order), Some(d))) else r
      case _ => r
  {
  }

  /** The two admin confirmations strike with two points, the seller or the buyer of the disputed order. */
  lemma AdminStrikesAreExact(m: Market, i: nat)
    requires Linked(m.shop) && i < |m.shop.disputes|
    ensures var o := m.shop.disputes[i].order;
      var t, stripe := m.shop.orders[o].terms, m.shop.disputes[i].stripe;
      && Next(m, ConfirmAllergen(i, true)).register
         == S.Step(m.register, About(t.seller, S.Seller, 2, "ALLERGEN_FALSE_DECLARATION", Some(i), o))
      && Next(m, ConfirmFraud(i, true)).register
         == S.Step(m.register, About(t.buyer, S.Buyer, 2, "FRAUDULENT_CHARGEBACK",
                                     if stripe.Some? then Some(stripe.value.id) else Some(i), o))
  {
  }

  // ---- Each side of a joint run is a run of its own ----

  function Just<T>(x: Option<T>): seq<T> {
    if x.Some? then [x.value] else []
  }

  function ShopRun(m: Market, moves: seq<Move>): seq<Action> {
    if moves == [] then []
    else
      var n := |moves| - 1;
      ShopRun(m, moves[..n]) + Just(ShopSide(RunAll(m, moves[..n]), moves[n]))
  }

  function RegisterRun(m: Market, moves: seq<Move>): seq<S.Action> {
    if moves == [] then []
    else
      var n := |moves| - 1;
      RegisterRun(m, moves[..n]) + Just(RegisterSide(RunAll(m, moves[..n]), moves[n]))
  }

  lemma RunJust(s: State, actions: seq<Action>, a: Option<Action>)
    ensures Run(s, actions + Just(a)) == if a.Some? then Step(Run(s, actions), a.value) else Run(s, actions)
  {
    if a.Some? { assert (actions + [a.value])[..|actions|] == actions; } else { assert actions + [] == actions; }
  }

  lemma RegisterRunJust(r: S.Register, actions: seq<S.Action>, a: Option<S.Action>)
    ensures S.Run(r, actions + Just(a)) == if a.Some? then S.Step(S.Run(r, actions), a.value) else S.Run(r, actions)
  {
    if a.Some? { assert (actions + [a.value])[..|actions|] == actions; } else { assert actions + [] == actions; }
  }

  /** So every theorem about runs of the shop, and every theorem about runs of the strike engine, holds in the joint
      system. */
  lemma {:induction false} JointRunsProject(m: Market, moves: seq<Move>)
    ensures RunAll(m, moves).shop == Run(m.shop, ShopRun(m, moves))
    ensures RunAll(m, moves).register == S.Run(m.register, RegisterRun(m, moves))
  {
    if moves == [] {
    } else {
      var n := |moves| - 1;
      JointRunsProject(m, moves[..n]);
      var t := RunAll(m, moves[..n]);
      RunJust(m.shop, ShopRun(m, moves[..n]), ShopSide(t, moves[n]));
      RegisterRunJust(m.register, RegisterRun(m, moves[..n]), RegisterSide(t, moves[n]));
    }
  }

  /** However often timers, drivers, buyers and admins report, no incident strikes twice. */
  lemma NoDoubleStrikeInTheShop(m: Market, moves: seq<Move>)
    requires S.OncePerIncident(m.register.strikes)
    ensures S.OncePerIncident(RunAll(m, moves).register.strikes)
  {
    JointRunsProject(m, moves);
    S.NoDoubleStrike(m.register, RegisterRun(m, moves));
  }

  // ---- Suspension in the joint system ----

  /** Admins give no negative points and do not lift the user's suspension. */
  predicate Fair(moves: seq<Move>, u: User) {
    forall i :: 0 <= i < |moves| && moves[i].Admin? ==>
      (moves[i].measure.Add? ==> moves[i].measure.incident.points >= 0) && moves[i].measure != S.Unsuspend(u)
  }

  lemma PenaltiesAreFair(m: Market, move: Move, u: User)
    requires move.Admin? ==> (move.measure.Add? ==> move.measure.incident.points >= 0) && move.measure != S.Unsuspend(u)
    ensures var k := RegisterSide(m, move);
      k.Some? ==> (k.value.Add? ==> k.value.incident.points >= 0) && k.value != S.Unsuspend(u)
  {
  }

  lemma {:induction false} FairRunsAreLawful(m: Market, moves: seq<Move>, u: User)
    requires Fair(moves, u)
    ensures S.Lawful(RegisterRun(m, moves), u)
  {
    if moves == [] {
    } else {
      var n := |moves| - 1;
      FairRunsAreLawful(m, moves[..n], u);
      PenaltiesAreFair(RunAll(m, moves[..n]), moves[n], u);
    }
  }

  /** With all strikes the handlers give, a user who is not suspended stays below three active points in each role. */
  lemma NobodyEscapesInTheShop(m: Market, moves: seq<Move>, u: User)
    requires S.Calm(m.register, u) && S.NoNegativePoints(m.register.strikes) && Fair(moves, u)
    ensures S.Calm(RunAll(m, moves).register, u)
  {
    JointRunsProject(m, moves);
    FairRunsAreLawful(m, moves, u);
    S.NobodyEscapesSuspension(m.register, RegisterRun(m, moves), u);
  }

  lemma SuspensionStays(r: S.Register, k: S.Action, u: User)
    requires u in r.suspended && k != S.Unsuspend(u)
    ensures u in S.Step(r, k).suspended
  {
  }

  lemma {:induction false} SuspendedStaySo(m: Market, moves: seq<Move>, u: User)
    requires u in m.register.suspended && Fair(moves, u)
    ensures u in RunAll(m, moves).register.suspended
  {
    if moves == [] {
    } else {
      var n := |moves| - 1;
      SuspendedStaySo(m, moves[..n], u);
      PenaltiesAreFair(RunAll(m, moves[..n]), moves[n], u);
      var k := RegisterSide(RunAll(m, moves[..n]), moves[n]);
      if k.Some? { SuspensionStays(RunAll(m, moves[..n]).register, k.value, u); }
    }
  }

  predicate Drives(s: State, o: OrderId, u: User) {
    o < |s.orders| && LatestRow(s, o).Some? && LatestRow(s, o).value.driver == Some(u)
  }

  lemma HandlersAssign(v: View, o: OrderId, e: Event, now: Time, window: nat, u: User)
    requires Legal(v.order, v.delivery, o) && (ForDelivery(e) ==> v.delivery.Some?)
    requires v.delivery.Some? ==> v.delivery.value.driver != Some(u)
    requires e.Claim? && e.driver == u ==> !e.eligible
    ensures var eff := EffectOf(e, v, o, now, window);
      eff.Some? && eff.value.delivery.Some? ==> eff.value.delivery.value.driver != Some(u)
  {
  }

  predicate AcceptedClaim(a: Action, u: User) {
    a.OnDelivery? && a.event.Claim? && a.event.driver == u && a.event.eligible
  }

  /** Only an accepted claim makes somebody the driver of an order. */
  lemma OnlyClaimsAssign(s: State, a: Action, o: OrderId, u: User)
    requires Consistent(s) && !Drives(s, o, u) && !AcceptedClaim(a, u)
    ensures !Drives(Step(s, a), o, u)
  {
    StepIsLocal(s, a);
    var s' := Step(s, a);
    if o < |s.orders| {
      var c := CauseOf(s, a, o);
      assert Good(ViewOf(s, o), o, s.tariff, s.now, s.releaseWindow);
      assert ViewOf(s', o) == NextView(ViewOf(s, o), o, c, s.now, s.releaseWindow);
      CauseOfClaim(s, a, o);
      if c.Handled? && (ForDelivery(c.event) ==> ViewOf(s, o).delivery.Some?) {
        HandlersAssign(ViewOf(s, o), o, c.event, s.now, s.releaseWindow, u);
      }
    } else if o < |s'.orders| {
      assert Good(ViewOf(s', o), o, s.tariff, s.now, s.releaseWindow);
    }
  }

  lemma CauseOfClaim(s: State, a: Action, o: OrderId)
    requires o < |s.orders|
    ensures var c := CauseOf(s, a, o); c.Handled? && c.event.Claim? ==> a.OnDelivery? && a.event == c.event
  {
  }

  lemma SuspendedTakeNothing(m: Market, move: Move, u: User, o: OrderId)
    requires Consistent(m.shop) && u in m.register.suspended
    ensures Drives(Next(m, move).shop, o, u) ==> Drives(m.shop, o, u)
  {
    var a := ShopSide(m, move);
    if a.Some? && !Drives(m.shop, o, u) { OnlyClaimsAssign(m.shop, a.value, o, u); }
  }

  /** A suspended driver gets no further delivery in any run that does not lift the suspension. */
  lemma {:induction false} SuspendedDriversClaimNothing(m: Market, moves: seq<Move>, u: User, o: OrderId)
    requires Consistent(m.shop) && u in m.register.suspended && Fair(moves, u)
    ensures Consistent(RunAll(m, moves).shop)
    ensures Drives(RunAll(m, moves).shop, o, u) ==> Drives(m.shop, o, u)
  {
    JointRunsProject(m, moves);
    EveryRunIsConsistent(m.shop, ShopRun(m, moves));
    if moves == [] {
    } else {
      var n := |moves| - 1;
      SuspendedDriversClaimNothing(m, moves[..n], u, o);
      SuspendedStaySo(m, moves[..n], u);
      SuspendedTakeNothing(RunAll(m, moves[..n]), moves[n], u, o);
    }
  }

  /** The driver-disappeared watchdog excludes the driver at once, so by the lemma above that driver is out. */
  lemma DisappearedDriverIsOut(m: Market, d: DeliveryId, stripe: StripeReply)
    requires Consistent(m.shop) && d < |m.shop.deliveries|
    requires Handle(m.shop, OnDelivery(d, DriverTimeout(stripe))).outcome.Done?
    ensures m.shop.deliveries[d].driver.Some?
    ensures m.shop.deliveries[d].driver.value in
      Next(m, Trade(OnDelivery(d, DriverTimeout(stripe)), true)).register.suspended
  {
    OneDeliveryPerOrder(m.shop, d);
    var o := m.shop.deliveries[d].order;
    assert Good(ViewOf(m.shop, o), o, m.shop.tariff, m.shop.now, m.shop.releaseWindow);
    TimeoutNeedsPickup(m.shop, d, stripe);
  }

  lemma TimeoutNeedsPickup(s: State, d: DeliveryId, stripe: StripeReply)
    requires d < |s.deliveries|
    requires Handle(s, OnDelivery(d, DriverTimeout(stripe))).outcome.Done?
    ensures s.deliveries[d].pickupConfirmedAt.Some? && !s.deliveries[d].status.Cancelled?
  {
  }

  // ---- Suspended buyers and sellers ----

  lemma SuspendedGetNoNewOrder(m: Market, move: Move, u: User)
    requires Consistent(m.shop) && u in m.register.suspended
    ensures |m.shop.orders| <= |Next(m, move).shop.orders|
    ensures forall o :: |m.shop.orders| <= o < |Next(m, move).shop.orders| ==>
      var t := Next(m, move).shop.orders[o].terms; t.buyer != u && t.seller != u
  {
    var a := ShopSide(m, move);
    if a.Some? {
      StepIsLocal(m.shop, a.value);
      if CallOf(m.shop, a.value).Some? { StepRunsItsCall(m.shop, a.value); }
      else if move.Trade? && move.action.PlaceOrder? { GatedPlacement(m, move.action.placement, u); }
      else { StepWithoutCall(m.shop, a.value); }
    }
  }

  /** Nor in any run that does not lift the suspension: no order placed in it is theirs, to eat or to cook. */
  lemma {:induction false} SuspendedTradeNothing(m: Market, moves: seq<Move>, u: User)
    requires Consistent(m.shop) && u in m.register.suspended && Fair(moves, u)
    ensures |m.shop.orders| <= |RunAll(m, moves).shop.orders|
    ensures forall o :: |m.shop.orders| <= o < |RunAll(m, moves).shop.orders| ==>
      var t := RunAll(m, moves).shop.orders[o].terms; t.buyer != u && t.seller != u
  {
    if moves == [] {
    } else {
      var n := |moves| - 1;
      var t := RunAll(m, moves[..n]);
      SuspendedTradeNothing(m, moves[..n], u);
      SuspendedStaySo(m, moves[..n], u);
      JointRunsProject(m, moves[..n]);
      EveryRunIsConsistent(m.shop, ShopRun(m, moves[..n]));
      SuspendedGetNoNewOrder(t, moves[n], u);
      OldTermsStay(t, moves[n]);
    }
  }

  lemma OldTermsStay(m: Market, move: Move)
    requires Consistent(m.shop)
    ensures |m.shop.orders| <= |Next(m, move).shop.orders|
    ensures forall o :: 0 <= o < |m.shop.orders| ==> Next(m, move).shop.orders[o].terms == m.shop.orders[o].terms
  {
    var a := ShopSide(m, move);
    if a.Some? {
      StepIsLocal(m.shop, a.value);
      forall o | 0 <= o < |m.shop.orders| ensures Step(m.shop, a.value).orders[o].terms == m.shop.orders[o].terms {
        TermsStay(m.shop, a.value, o);
      }
    }
  }

  lemma GatedPlacement(m: Market, p: Placement, u: User)
    requires u in m.register.suspended
    ensures var orders := Place(m.shop, GatePlacement(m, p)).state.orders;
      && |m.shop.orders| <= |orders|
      && forall o :: |m.shop.orders| <= o < |orders| ==> orders[o].terms.buyer != u && orders[o].terms.seller != u
  {
  }
}
