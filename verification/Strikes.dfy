/** The strike engine: one strike per incident, and suspension at three points in a sliding window
    (src/modules/strikes/strikes.service.ts). */
module Strikes {
  import opened Domain

  const STRIKE_WINDOW := 90 * 24 * 60 * 60 * 1000
  const SUSPENSION_THRESHOLD_POINTS := 3

  datatype Role = Seller | Driver | Buyer

  datatype Strike = Strike(
    user: User,
    role: Role,
    points: int,
    reason: string,
    sourceId: Option<nat>,
    orderId: Option<OrderId>,
    deliveryId: Option<DeliveryId>,
    createdAt: Time)

  /** What a caller hands to `addStrike`; the creation time is added on insert. */
  datatype Incident = Incident(
    user: User,
    role: Role,
    points: int,
    reason: string,
    sourceId: Option<nat>,
    orderId: Option<OrderId>,
    deliveryId: Option<DeliveryId>)

  datatype Register = Register(strikes: seq<Strike>, suspended: set<User>, now: Time)

  datatype Action =
    | Tick(elapsed: nat)
    | Add(incident: Incident)
    | Exclude(user: User, role: Role, reason: string, orderId: Option<OrderId>, deliveryId: Option<DeliveryId>)
    | Suspend(user: User)
    | Unsuspend(user: User)

  // ---- Specification ----

  datatype Source = OfDelivery(delivery: DeliveryId) | OfOrder(order: OrderId) | OfSource(source: nat) | Unsourced

  /** The most specific source: delivery, then order, then free source id. */
  function SourceOf(sourceId: Option<nat>, orderId: Option<OrderId>, deliveryId: Option<DeliveryId>): Source {
    if deliveryId.Some? then OfDelivery(deliveryId.value)
    else if orderId.Some? then OfOrder(orderId.value)
    else if sourceId.Some? then OfSource(sourceId.value)
    else Unsourced
  }

  /** The column a source is looked up in. */
  predicate Carries(k: Strike, source: Source) {
    match source
    case OfDelivery(d) => k.deliveryId == Some(d)
    case OfOrder(o) => k.orderId == Some(o)
    case OfSource(i) => k.sourceId == Some(i)
    case Unsourced => false
  }

  predicate Struck(strikes: seq<Strike>, i: Incident) {
    exists k :: 0 <= k < |strikes| && strikes[k].user == i.user && strikes[k].role == i.role
                && strikes[k].reason == i.reason && Carries(strikes[k], SourceOf(i.sourceId, i.orderId, i.deliveryId))
  }

  predicate Counts(k: Strike, u: User, role: Role, now: Time) {
    k.user == u && k.role == role && now - STRIKE_WINDOW <= k.createdAt
  }

  function ActivePoints(strikes: seq<Strike>, u: User, role: Role, now: Time): int {
    if strikes == [] then 0
    else
      var last := strikes[|strikes| - 1];
      ActivePoints(strikes[..|strikes| - 1], u, role, now) + if Counts(last, u, role, now) then last.points else 0
  }

  function Recorded(i: Incident, now: Time): Strike {
    Strike(i.user, i.role, i.points, i.reason, i.sourceId, i.orderId, i.deliveryId, now)
  }

  function AfterAdd(s: Register, i: Incident): Register {
    if Struck(s.strikes, i) then s
    else
      var strikes := s.strikes + [Recorded(i, s.now)];
      s.(strikes := strikes,
         suspended := if ActivePoints(strikes, i.user, i.role, s.now) >= SUSPENSION_THRESHOLD_POINTS
                      then s.suspended + {i.user} else s.suspended)
  }

  function Exclusion(a: Action): Incident
    requires a.Exclude?
  {
    Incident(a.user, a.role, SUSPENSION_THRESHOLD_POINTS, a.reason, None, a.orderId, a.deliveryId)
  }

  function Step(s: Register, a: Action): Register {
    match a
    case Tick(elapsed) => s.(now := s.now + elapsed)
    case Add(i) => AfterAdd(s, i)
    case Exclude(u, _, _, _, _) =>
      var s' := AfterAdd(s, Exclusion(a));
      s'.(suspended := s'.suspended + {u})
    case Suspend(u) => s.(suspended := s.suspended + {u})
    case Unsuspend(u) => s.(suspended := s.suspended - {u})
  }

  function Run(s: Register, actions: seq<Action>): Register {
    if actions == [] then s else Step(Run(s, actions[..|actions| - 1]), actions[|actions| - 1])
  }

  // ---- One strike per incident ----

  predicate SameIncident(a: Strike, b: Strike) {
    && a.user == b.user && a.role == b.role && a.reason == b.reason
    && SourceOf(a.sourceId, a.orderId, a.deliveryId) == SourceOf(b.sourceId, b.orderId, b.deliveryId)
    && SourceOf(a.sourceId, a.orderId, a.deliveryId) != Unsourced
  }

  predicate OncePerIncident(strikes: seq<Strike>) {
    forall i, j :: 0 <= i < j < |strikes| ==> !SameIncident(strikes[i], strikes[j])
  }

  lemma AddingKeepsIncidentsUnique(s: Register, i: Incident)
    requires OncePerIncident(s.strikes)
    ensures OncePerIncident(AfterAdd(s, i).strikes)
  {
    if !Struck(s.strikes, i) {
      forall k | 0 <= k < |s.strikes| ensures !SameIncident(s.strikes[k], Recorded(i, s.now)) {
        assert SameIncident(s.strikes[k], Recorded(i, s.now)) ==>
          Carries(s.strikes[k], SourceOf(i.sourceId, i.orderId, i.deliveryId));
      }
    }
  }

  /** In every run there is at most one strike per user, role, reason and most specific source. */
  lemma {:induction false} NoDoubleStrike(s: Register, actions: seq<Action>)
    requires OncePerIncident(s.strikes)
    ensures OncePerIncident(Run(s, actions).strikes)
  {
    if actions == [] {
    } else {
      var n := |actions| - 1;
      NoDoubleStrike(s, actions[..n]);
      var a := actions[n];
      if a.Add? { AddingKeepsIncidentsUnique(Run(s, actions[..n]), a.incident); }
      if a.Exclude? { AddingKeepsIncidentsUnique(Run(s, actions[..n]), Exclusion(a)); }
    }
  }

  /** An earlier strike of the same user, role and reason about the same thing: the delivery if one is named, else the
      order, else the free source. */
  predicate StruckBefore(strikes: seq<Strike>, i: Incident) {
    exists k :: 0 <= k < |strikes| && strikes[k].user == i.user && strikes[k].role == i.role
                && strikes[k].reason == i.reason
                && (if i.deliveryId.Some? then strikes[k].deliveryId == i.deliveryId
                    else if i.orderId.Some? then strikes[k].orderId == i.orderId
                    else i.sourceId.Some? && strikes[k].sourceId == i.sourceId)
  }

  const NINETY_DAYS := 7_776_000_000

  /** An incident is recorded exactly when it was not struck before, with all it says and the time of now. */
  lemma RecordsExactlyWhen(s: Register, i: Incident)
    ensures Step(s, Add(i)).strikes
         == if StruckBefore(s.strikes, i) then s.strikes
            else s.strikes + [Strike(i.user, i.role, i.points, i.reason, i.sourceId, i.orderId, i.deliveryId, s.now)]
    ensures Step(s, Add(i)).now == s.now
  {
    assert StruckBefore(s.strikes, i) ==> Struck(s.strikes, i) by {
      if StruckBefore(s.strikes, i) {
        var k :| 0 <= k < |s.strikes| && s.strikes[k].user == i.user && s.strikes[k].role == i.role
                 && s.strikes[k].reason == i.reason
                 && (if i.deliveryId.Some? then s.strikes[k].deliveryId == i.deliveryId
                     else if i.orderId.Some? then s.strikes[k].orderId == i.orderId
                     else i.sourceId.Some? && s.strikes[k].sourceId == i.sourceId);
        assert Carries(s.strikes[k], SourceOf(i.sourceId, i.orderId, i.deliveryId));
      }
    }
  }

  // ---- Suspension as the window slides ----

  predicate NoNegativePoints(strikes: seq<Strike>) {
    forall i :: 0 <= i < |strikes| ==> strikes[i].points >= 0
  }

  /** A user who is not suspended is below the threshold in every role. */
  predicate Calm(s: Register, u: User) {
    u in s.suspended || forall role :: ActivePoints(s.strikes, u, role, s.now) < SUSPENSION_THRESHOLD_POINTS
  }

  /** Sliding the window forward only takes points away. */
  lemma {:induction false} PointsExpire(strikes: seq<Strike>, u: User, role: Role, now: Time, later: Time)
    requires NoNegativePoints(strikes) && now <= later
    ensures ActivePoints(strikes, u, role, later) <= ActivePoints(strikes, u, role, now)
  {
    if strikes == [] {
    } else {
      PointsExpire(strikes[..|strikes| - 1], u, role, now, later);
    }
  }

  lemma PointsAfterAppend(strikes: seq<Strike>, k: Strike, u: User, role: Role, now: Time)
    ensures ActivePoints(strikes + [k], u, role, now)
         == ActivePoints(strikes, u, role, now) + if Counts(k, u, role, now) then k.points else 0
  {
    assert (strikes + [k])[..|strikes|] == strikes;
  }

  /** A recorded strike suspends its user exactly when it brings the points of the last 90 days in that role to three:
      those that counted before and its own. Nobody else is suspended by it, and a duplicate suspends nobody. */
  lemma SuspendsExactlyWhen(s: Register, i: Incident)
    ensures Step(s, Add(i)).suspended
         == if !StruckBefore(s.strikes, i) && ActivePoints(s.strikes, i.user, i.role, s.now) + i.points >= 3
            then s.suspended + {i.user} else s.suspended
    ensures forall k: Strike, now :: Counts(k, i.user, i.role, now) <==>
      k.user == i.user && k.role == i.role && now <= k.createdAt + NINETY_DAYS
  {
    RecordsExactlyWhen(s, i);
    PointsAfterAppend(s.strikes, Recorded(i, s.now), i.user, i.role, s.now);
    assert |s.strikes + [Recorded(i, s.now)]| == |s.strikes| + 1;
  }

  lemma AddingKeepsCalm(s: Register, i: Incident, u: User)
    requires Calm(s, u)
    ensures Calm(AfterAdd(s, i), u)
  {
    forall role ensures ActivePoints(s.strikes + [Recorded(i, s.now)], u, role, s.now)
      == ActivePoints(s.strikes, u, role, s.now) + if i.user == u && i.role == role then i.points else 0
    {
      PointsAfterAppend(s.strikes, Recorded(i, s.now), u, role, s.now);
    }
  }

  /** No strike of negative points, and nobody lifts the user's suspension. */
  predicate Lawful(actions: seq<Action>, u: User) {
    forall i :: 0 <= i < |actions| ==>
      (actions[i].Add? ==> actions[i].incident.points >= 0) && actions[i] != Unsuspend(u)
  }

  lemma StepKeepsCalm(s: Register, a: Action, u: User)
    requires Calm(s, u) && NoNegativePoints(s.strikes)
    requires (a.Add? ==> a.incident.points >= 0) && a != Unsuspend(u)
    ensures Calm(Step(s, a), u) && NoNegativePoints(Step(s, a).strikes)
  {
    match a
    case Add(i) => AddingKeepsCalm(s, i, u);
    case Exclude(_, _, _, _, _) => AddingKeepsCalm(s, Exclusion(a), u);
    case Tick(elapsed) =>
      var later := s.now + elapsed;
      if u !in s.suspended {
        forall role ensures ActivePoints(s.strikes, u, role, later) < SUSPENSION_THRESHOLD_POINTS {
          PointsExpire(s.strikes, u, role, s.now, later);
          assert ActivePoints(s.strikes, u, role, s.now) < SUSPENSION_THRESHOLD_POINTS;
        }
      }
    case _ =>
  }

  /** In every run that gives no negative points and does not lift the user's suspension, a user who is not suspended
      has fewer than three active points in each role at every instant. */
  lemma {:induction false} NobodyEscapesSuspension(s: Register, actions: seq<Action>, u: User)
    requires Calm(s, u) && NoNegativePoints(s.strikes) && Lawful(actions, u)
    ensures Calm(Run(s, actions), u) && NoNegativePoints(Run(s, actions).strikes)
  {
    if actions == [] {
    } else {
      var n := |actions| - 1;
      NobodyEscapesSuspension(s, actions[..n], u);
      StepKeepsCalm(Run(s, actions[..n]), actions[n], u);
    }
  }

  // ---- Negative points ----

  function Blank(now: Time): Register { Register([], {}, now) }

  function StrikeOf(u: User, points: int, source: nat): Action {
    Add(Incident(u, Seller, points, "", Some(source), None, None))
  }

  /** A credit now, three points later, then the credit expires. */
  function CreditThenStrike(u: User, points: int): seq<Action> {
    [StrikeOf(u, points, 0), Tick(STRIKE_WINDOW), StrikeOf(u, 3, 1), Tick(1)]
  }

  lemma RunOfFour(s: Register, a: Action, b: Action, c: Action, d: Action)
    ensures Run(s, [a, b, c, d]) == Step(Step(Step(Step(s, a), b), c), d)
  {
    assert [a, b, c, d][..3] == [a, b, c] && [a, b, c][..2] == [a, b] && [a, b][..1] == [a] && [a][..0] == [];
    assert Run(s, [a]) == Step(s, a);
    assert Run(s, [a, b]) == Step(Step(s, a), b);
    assert Run(s, [a, b, c]) == Step(Step(Step(s, a), b), c);
  }

  lemma CreditHidesAStrike(u: User, points: int)
    requires points < 0
    ensures !Calm(Run(Blank(0), CreditThenStrike(u, points)), u)
  {
    var first := Recorded(StrikeOf(u, points, 0).incident, 0);
    var second := Recorded(StrikeOf(u, 3, 1).incident, STRIKE_WINDOW);
    var s1 := Step(Blank(0), StrikeOf(u, points, 0));
    PointsAfterAppend([], first, u, Seller, 0);
    assert [] + [first] == [first];
    assert s1 == Register([first], {}, 0);
    var s2 := Step(s1, Tick(STRIKE_WINDOW));
    PointsAfterAppend([], first, u, Seller, STRIKE_WINDOW);
    PointsAfterAppend([first], second, u, Seller, STRIKE_WINDOW);
    var s3 := Step(s2, StrikeOf(u, 3, 1));
    assert s3 == Register([first] + [second], {}, STRIKE_WINDOW);
    PointsAfterAppend([], first, u, Seller, STRIKE_WINDOW + 1);
    PointsAfterAppend([first], second, u, Seller, STRIKE_WINDOW + 1);
    RunOfFour(Blank(0), StrikeOf(u, points, 0), Tick(STRIKE_WINDOW), StrikeOf(u, 3, 1), Tick(1));
  }

  /** Strikes are worth `points` or three. */
  predicate Graded(actions: seq<Action>, u: User, points: int) {
    forall i :: 0 <= i < |actions| ==>
      (actions[i].Add? ==> actions[i].incident.points == points || actions[i].incident.points == 3)
      && actions[i] != Unsuspend(u)
  }

  /** The engine accepts any number of points: with a grade below zero a user can end up above the threshold without
      being suspended, with any other grade nobody can. */
  lemma WindowIsSafeExactlyWhen(u: User, points: int)
    ensures (forall actions :: Graded(actions, u, points) ==> Calm(Run(Blank(0), actions), u)) <==> points >= 0
  {
    if points < 0 {
      CreditHidesAStrike(u, points);
      assert Graded(CreditThenStrike(u, points), u, points);
    } else {
      forall actions | Graded(actions, u, points) ensures Calm(Run(Blank(0), actions), u) {
        NobodyEscapesSuspension(Blank(0), actions, u);
      }
    }
  }

  // ---- The service ----

  class StrikesService {
    var strikes: seq<Strike>
    var suspended: set<User>
    var now: Time

    constructor (now: Time)
      ensures Snapshot() == Blank(now)
    {
      strikes, suspended, this.now := [], {}, now;
    }

    ghost function Snapshot(): Register
      reads this
    {
      Register(strikes, suspended, now)
    }

    method AddStrike(i: Incident) returns (created: bool, isSuspended: bool)
      modifies this`strikes, this`suspended
      ensures Snapshot() == Step(old(Snapshot()), Add(i))
      ensures created <==> !Struck(old(strikes), i)
      ensures isSuspended <==> if created then ActivePoints(strikes, i.user, i.role, now) >= SUSPENSION_THRESHOLD_POINTS
                                        else i.user in suspended
    {
      var source := SourceOf(i.sourceId, i.orderId, i.deliveryId);
      if source != Unsourced {
        for k := 0 to |strikes|
          invariant forall j :: 0 <= j < k ==> !(strikes[j].user == i.user && strikes[j].role == i.role
                                                 && strikes[j].reason == i.reason && Carries(strikes[j], source))
        {
          var strike := strikes[k];
          if strike.user == i.user && strike.role == i.role && strike.reason == i.reason && Carries(strike, source) {
            return false, i.user in suspended;
          }
        }
      }
      strikes := strikes + [Recorded(i, now)];
      isSuspended := EvaluateSuspension(i.user, i.role);
      created := true;
    }

    method GetActiveStrikePoints(u: User, role: Role) returns (points: int)
      ensures points == ActivePoints(strikes, u, role, now)
    {
      points := 0;
      var cutoff := now - STRIKE_WINDOW;
      for k := 0 to |strikes|
        invariant points == ActivePoints(strikes[..k], u, role, now)
      {
        assert strikes[..k + 1][..k] == strikes[..k];
        if strikes[k].user == u && strikes[k].role == role && strikes[k].createdAt >= cutoff {
          points := points + strikes[k].points;
        }
      }
      assert strikes[..|strikes|] == strikes;
    }

    method EvaluateSuspension(u: User, role: Role) returns (reached: bool)
      modifies this`suspended
      ensures reached <==> ActivePoints(strikes, u, role, now) >= SUSPENSION_THRESHOLD_POINTS
      ensures suspended == if reached then old(suspended) + {u} else old(suspended)
    {
      var points := GetActiveStrikePoints(u, role);
      if points >= SUSPENSION_THRESHOLD_POINTS {
        SuspendUser(u);
        return true;
      }
      reached := false;
    }

    method SuspendUser(u: User)
      modifies this`suspended
      ensures Snapshot() == Step(old(Snapshot()), Suspend(u))
    {
      if u !in suspended { suspended := suspended + {u}; }
    }

    method UnsuspendUser(u: User)
      modifies this`suspended
      ensures Snapshot() == Step(old(Snapshot()), Unsuspend(u))
    {
      suspended := suspended - {u};
    }

    /** Strikes at the threshold and suspends, also when the strike was a duplicate. */
    method ImmediateExclude(u: User, role: Role, reason: string, orderId: Option<OrderId>,
                            deliveryId: Option<DeliveryId>)
      modifies this`strikes, this`suspended
      ensures Snapshot() == Step(old(Snapshot()), Exclude(u, role, reason, orderId, deliveryId))
      ensures u in suspended
    {
      var _, _ := AddStrike(Incident(u, role, SUSPENSION_THRESHOLD_POINTS, reason, None, orderId, deliveryId));
      SuspendUser(u);
    }
  }
}
