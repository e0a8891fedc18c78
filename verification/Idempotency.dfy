/** The idempotent order POST: look up the key, create the order, save the response
    (src/common/services/idempotency.service.ts, src/modules/orders/orders.controller.ts). */
module Idempotency {
  import opened Domain
  import opened Inventory
  import opened Marketplace
  import opened Receipts
  import opened Orders

  type Key = nat

  /** The request body: what reaches the order, and everything else it carries (note, address, timing, consent). */
  datatype Body = Body(cart: seq<CartLine>, choice: Fulfillment, rest: string)

  /** What the world answers while the order is being created; a replay may meet a different one. */
  datatype Circumstances = Circumstances(gate: Option<Error>, isPremium: bool, intent: Intent, clientSecret: nat)

  /** `known` tells whether the token's owner has a user row. */
  datatype Request = Request(user: User, known: bool, key: Option<Key>, body: Body, circumstances: Circumstances)

  datatype CreateOrderResponse = CreateOrderResponse(order: OrderId, receipt: OrderResponse, clientSecret: nat)

  datatype Result = Replied(response: CreateOrderResponse) | Threw(error: Error)

  /** A digest that tells any two bodies apart. */
  datatype Digest = Sha256(body: Body)

  function HashBody(body: Body): Digest { Sha256(body) }

  const CREATED := 201
  const TTL := 24 * 3600 * 1000

  datatype Saved = Saved(hash: Digest, status: nat, response: CreateOrderResponse, expiresAt: Time)

  /** What `get` answers: nothing yet, the stored response, or an error. */
  datatype Lookup = Missing | Cached(status: nat, response: CreateOrderResponse) | Failing(error: Error)

  type Keys = map<(User, Key), Saved>

  /** The shop and its key store. */
  datatype Site = Site(state: State, keys: Keys)

  // ---- Specification ----

  function PlacementOf(r: Request): Placement {
    var c := r.circumstances;
    Placement(r.user, r.body.cart, r.body.choice, c.gate, c.isPremium, c.intent)
  }

  datatype Posted = Posted(site: Site, result: Result)

  /** Only a successful creation is saved under its key. */
  function CreateAndSave(site: Site, r: Request, key: Key): Posted {
    var reply := Handle(site.state, PlaceOrder(PlacementOf(r)));
    if reply.outcome.Failed? then Posted(site.(state := reply.state), Threw(reply.outcome.error))
    else if |reply.state.orders| == 0 then Posted(site, Threw(NotFound))
    else
      var o := |reply.state.orders| - 1;
      var response := CreateOrderResponse(o, OrderFrom(reply.state.orders[o]), r.circumstances.clientSecret);
      Posted(Site(reply.state,
                  site.keys[(r.user, key) := Saved(HashBody(r.body), CREATED, response, site.state.now + TTL)]),
             Replied(response))
  }

  function Post(site: Site, r: Request): Posted {
    if r.key.None? then Posted(site, Threw(BadRequest))
    else if !r.known then Posted(site, Threw(NotFound))
    else
      var id := (r.user, r.key.value);
      if id !in site.keys then CreateAndSave(site, r, r.key.value)
      else if site.keys[id].hash != HashBody(r.body) then Posted(site, Threw(Conflict))
      else Posted(site, Replied(site.keys[id].response))
  }

  /** Order POSTs interleaved with every other step of the shop. */
  datatype Call = Sent(request: Request) | Other(action: Action)

  function Serve(site: Site, c: Call): Site {
    match c
    case Sent(r) => Post(site, r).site
    case Other(a) => site.(state := Step(site.state, a))
  }

  function ServeAll(site: Site, calls: seq<Call>): Site {
    if calls == [] then site else Serve(ServeAll(site, calls[..|calls| - 1]), calls[|calls| - 1])
  }

  predicate Asks(c: Call, user: User, key: Key) {
    c.Sent? && c.request.user == user && c.request.key == Some(key) && c.request.known
  }

  // ---- A saved key is for ever ----

  lemma {:induction false} SavedKeysStay(site: Site, calls: seq<Call>, id: (User, Key))
    requires id in site.keys
    ensures var site' := ServeAll(site, calls); id in site'.keys && site'.keys[id] == site.keys[id]
  {
    if calls == [] {
    } else {
      SavedKeysStay(site, calls[..|calls| - 1], id);
    }
  }

  lemma SuccessIsSaved(site: Site, r: Request)
    requires Post(site, r).result.Replied?
    ensures r.key.Some? && r.known
    ensures var keys := Post(site, r).site.keys; var id := (r.user, r.key.value);
      id in keys && keys[id].hash == HashBody(r.body) && keys[id].response == Post(site, r).result.response
  {
  }

  lemma OneMoreCall(site: Site, calls: seq<Call>, c: Call)
    ensures ServeAll(site, calls + [c]) == Serve(ServeAll(site, calls), c)
  {
    assert (calls + [c])[..|calls|] == calls;
  }

  lemma LastOfBoth(a: seq<Call>, b: seq<Call>)
    requires b != []
    ensures var n := |b| - 1; a + b[..n] + [b[n]] == a + b && b[..n] + [b[n]] == b
  {
  }

  lemma {:induction false} RunsCompose(site: Site, a: seq<Call>, b: seq<Call>)
    ensures ServeAll(site, a + b) == ServeAll(ServeAll(site, a), b)
  {
    if b == [] {
      assert a + b == a;
    } else {
      var n := |b| - 1;
      var calls, middle := a + b[..n], ServeAll(site, a);
      RunsCompose(site, a, b[..n]);
      OneMoreCall(site, calls, b[n]);
      OneMoreCall(middle, b[..n], b[n]);
      LastOfBoth(a, b);
    }
  }

  /** After one success for a (user, key), whatever happened in between: the same body gets the very same response and
      another body is refused, and neither touches the shop. */
  lemma RepliesAreReplayed(site: Site, r: Request, between: seq<Call>, again: Request)
    requires Post(site, r).result.Replied?
    requires again.user == r.user && again.key == r.key && again.known
    ensures var later := ServeAll(Post(site, r).site, between);
      && Post(later, again).site == later
      && Post(later, again).result == if again.body == r.body then Post(site, r).result else Threw(Conflict)
  {
    SuccessIsSaved(site, r);
    SavedKeysStay(Post(site, r).site, between, (r.user, r.key.value));
  }

  lemma SplitAt(site: Site, calls: seq<Call>, i: nat, j: nat)
    requires i < j < |calls|
    ensures ServeAll(site, calls[..j]) == ServeAll(Serve(ServeAll(site, calls[..i]), calls[i]), calls[i + 1..j])
  {
    assert calls[..i + 1] + calls[i + 1..j] == calls[..j];
    RunsCompose(site, calls[..i + 1], calls[i + 1..j]);
    assert calls[..i + 1][..i] == calls[..i];
  }

  /** Hence all successful responses for one (user, key) in a run are identical. */
  lemma OneResponsePerKey(site: Site, calls: seq<Call>, i: nat, j: nat, user: User, key: Key)
    requires i < j < |calls| && Asks(calls[i], user, key) && Asks(calls[j], user, key)
    requires Post(ServeAll(site, calls[..i]), calls[i].request).result.Replied?
    requires Post(ServeAll(site, calls[..j]), calls[j].request).result.Replied?
    ensures Post(ServeAll(site, calls[..i]), calls[i].request).result
         == Post(ServeAll(site, calls[..j]), calls[j].request).result
    ensures calls[i].request.body == calls[j].request.body
  {
    SplitAt(site, calls, i, j);
    RepliesAreReplayed(ServeAll(site, calls[..i]), calls[i].request, calls[i + 1..j], calls[j].request);
  }

  // ---- One order per key ----

  /** A request of this (user, key) that creates an order and answers with it. */
  predicate CreatesFor(site: Site, c: Call, user: User, key: Key) {
    Asks(c, user, key) && (user, key) !in site.keys && Post(site, c.request).result.Replied?
  }

  function Creations(site: Site, calls: seq<Call>, user: User, key: Key): nat {
    if calls == [] then 0
    else
      var n := |calls| - 1;
      Creations(site, calls[..n], user, key)
      + if CreatesFor(ServeAll(site, calls[..n]), calls[n], user, key) then 1 else 0
  }

  /** However often a key is sent, at most one answered order comes of it. */
  lemma {:induction false} OneOrderPerKey(site: Site, calls: seq<Call>, user: User, key: Key)
    ensures Creations(site, calls, user, key) <= if (user, key) in ServeAll(site, calls).keys then 1 else 0
  {
    if calls == [] {
    } else {
      var n := |calls| - 1;
      OneOrderPerKey(site, calls[..n], user, key);
      var before := ServeAll(site, calls[..n]);
      if (user, key) in before.keys {
        SavedKeysStay(before, [calls[n]], (user, key));
      } else if CreatesFor(before, calls[n], user, key) {
        SuccessIsSaved(before, calls[n].request);
      }
    }
  }

  // ---- What a failure leaves ----

  /** A request that is refused saves nothing, so its key can be used again. It still leaves an order behind exactly
      when everything passed and Stripe then refused the PaymentIntent: a retry of that request is a second order. */
  lemma RefusalLeavesAnOrderExactlyWhen(site: Site, r: Request)
    requires Post(site, r).result.Threw?
    ensures Post(site, r).site.keys == site.keys
    ensures Post(site, r).site.state.orders != site.state.orders <==>
      && r.key.Some? && r.known && (r.user, r.key.value) !in site.keys
      && r.circumstances.gate.None? && ValidCart(site.state.listings, r.body.cart, r.body.choice)
      && CanTake(site.state.listings, Snapshots(site.state.listings, r.body.cart, r.body.choice))
      && r.circumstances.intent.NoIntent?
  {
    if r.key.Some? && r.known && (r.user, r.key.value) !in site.keys {
      PlacingGrows(site.state, PlacementOf(r));
    }
  }

  lemma PlacingGrows(s: State, p: Placement)
    ensures var reply := Handle(s, PlaceOrder(p));
      var passes := p.gate.None? && ValidCart(s.listings, p.cart, p.choice)
                    && CanTake(s.listings, Snapshots(s.listings, p.cart, p.choice));
      && |reply.state.orders| == |s.orders| + (if passes then 1 else 0)
      && (!passes ==> reply.state.orders == s.orders)
      && !reply.outcome.Skipped? && reply.state.now == s.now
      && (reply.outcome.Done? <==> passes && !p.intent.NoIntent?)
  {
  }

  /** Under a free key a request is answered exactly when its order goes through, with that very order: its id, its
      receipt, and the client secret of its payment. */
  lemma FreshReplyNamesItsOrder(site: Site, r: Request)
    requires r.key.Some? && r.known && (r.user, r.key.value) !in site.keys
    ensures Post(site, r).site.state == Step(site.state, PlaceOrder(PlacementOf(r)))
    ensures Post(site, r).result.Replied? <==> Handle(site.state, PlaceOrder(PlacementOf(r))).outcome.Done?
    ensures Post(site, r).result.Replied? ==>
      var o, orders := |site.state.orders|, Post(site, r).site.state.orders;
      |orders| == o + 1
      && Post(site, r).result.response == CreateOrderResponse(o, OrderFrom(orders[o]), r.circumstances.clientSecret)
  {
    PlacingGrows(site.state, PlacementOf(r));
  }

  // ---- The services ----

  class IdempotencyService {
    var keys: Keys

    constructor ()
      ensures keys == map[]
    {
      keys := map[];
    }

    /** Nothing the first time, the saved response on a replay, a conflict for another body. */
    method Get(user: User, known: bool, key: Key, body: Body) returns (found: Lookup)
      ensures found == if !known then Failing(NotFound)
                       else if (user, key) !in keys then Missing
                       else if keys[(user, key)].hash != HashBody(body) then Failing(Conflict)
                       else Cached(keys[(user, key)].status, keys[(user, key)].response)
    {
      if !known { return Failing(NotFound); }
      var requestHash := HashBody(body);
      if (user, key) !in keys { return Missing; }
      var existing := keys[(user, key)];
      if existing.hash != requestHash { return Failing(Conflict); }
      found := Cached(existing.status, existing.response);
    }

    /** An insert: the unique (user, key) must be free. */
    method Save(user: User, key: Key, body: Body, status: nat, response: CreateOrderResponse, now: Time)
      requires (user, key) !in keys
      modifies this
      ensures keys == old(keys)[(user, key) := Saved(HashBody(body), status, response, now + TTL)]
    {
      var expiresAt := now + TTL;
      keys := keys[(user, key) := Saved(HashBody(body), status, response, expiresAt)];
    }
  }

  class OrdersController {
    const orders: OrdersService
    const idempotency: IdempotencyService

    constructor (orders: OrdersService, idempotency: IdempotencyService)
      ensures this.orders == orders && this.idempotency == idempotency
    {
      this.orders, this.idempotency := orders, idempotency;
    }

    ghost function Snapshot(): Site
      reads orders.db, idempotency
    {
      Site(orders.db.Snapshot(), idempotency.keys)
    }

    method Create(r: Request) returns (result: Result)
      requires orders.db.Valid()
      modifies orders.db, idempotency
      ensures Posted(Snapshot(), result) == Post(old(Snapshot()), r) && orders.db.Valid()
    {
      if r.key.None? { return Threw(BadRequest); }
      var found := idempotency.Get(r.user, r.known, r.key.value, r.body);
      if found.Failing? { return Threw(found.error); }
      if found.Cached? { return Replied(found.response); }
      result := CreateFresh(r, r.key.value);
    }

    /** Under a key not used before: create, and save the response of a success. */
    method CreateFresh(r: Request, key: Key) returns (result: Result)
      requires orders.db.Valid() && (r.user, key) !in idempotency.keys
      modifies orders.db, idempotency
      ensures Posted(Snapshot(), result) == CreateAndSave(old(Snapshot()), r, key) && orders.db.Valid()
    {
      PlacingGrows(orders.db.Snapshot(), PlacementOf(r));
      var outcome := orders.CreateOrder(PlacementOf(r));
      if outcome.Failed? { return Threw(outcome.error); }
      var o := |orders.db.orders| - 1;
      var response := CreateOrderResponse(o, OrderFrom(orders.db.orders[o]), r.circumstances.clientSecret);
      idempotency.Save(r.user, key, r.body, CREATED, response, orders.db.now);
      result := Replied(response);
    }
  }
}
