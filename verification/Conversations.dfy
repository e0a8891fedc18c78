/** Chat threads: who may open one, that there is only one, and what is unread
    (src/modules/messaging/conversations.service.ts, src/modules/messaging/messaging.service.ts). */
module Conversations {
  import opened Domain

  datatype ConversationType = BuyerSeller | BuyerDelivery | SellerDriver | Support

  /** The parties of an order; the driver is the one of its latest delivery. */
  datatype Parties = Parties(buyer: User, seller: User, driver: Option<User>)

  type ThreadId = nat

  /** `readMark` is where the message table stood at the participant's last `markRead` (0 before the first). */
  datatype Participant = Participant(user: User, unreadCount: nat, readMark: nat)

  datatype Conversation = Conversation(
    kind: ConversationType,
    order: Option<OrderId>,
    participants: seq<Participant>,
    lastMessage: Option<string>)

  datatype Message = Message(thread: ThreadId, sender: User, content: string)

  datatype Chats = Chats(
    users: set<User>,
    parties: map<OrderId, Parties>,
    threads: seq<Conversation>,
    messages: seq<Message>)

  datatype ChatOutcome = Opened(thread: ThreadId) | Nothing | Finished | Denied(error: Error)

  datatype ChatReply = ChatReply(chats: Chats, outcome: ChatOutcome)

  datatype ChatAction =
    | UserJoins(user: User)
    | OrderChanges(order: OrderId, parties: Parties)
    | FindOrCreate(caller: User, kind: ConversationType, scope: Option<OrderId>, peer: Option<User>)
    | EnsureSellerDriver(order: OrderId, driver: User)
    | MarkRead(caller: User, thread: ThreadId)
    | Send(caller: User, thread: ThreadId, content: string)

  // ---- The peer of an order chat ----

  datatype Peer = Peer(user: User) | NoPeer(error: Error)

  function ResolvePeer(p: Parties, caller: User, kind: ConversationType): Peer {
    var isBuyer, isSeller, isDriver := caller == p.buyer, caller == p.seller, p.driver == Some(caller);
    if !isBuyer && !isSeller && !isDriver then NoPeer(Forbidden)
    else
      match kind
      case BuyerDelivery =>
        if isBuyer then (if p.driver.Some? then Peer(p.driver.value) else NoPeer(BadRequest))
        else if isDriver then Peer(p.buyer)
        else NoPeer(BadRequest)
      case SellerDriver =>
        if isSeller then (if p.driver.Some? then Peer(p.driver.value) else NoPeer(BadRequest))
        else if isDriver then Peer(p.seller)
        else NoPeer(BadRequest)
      case BuyerSeller =>
        if isBuyer then Peer(p.seller) else if isSeller then Peer(p.buyer) else NoPeer(BadRequest)
      case Support => NoPeer(BadRequest)
  }

  function ResolvePeerFromOrder(parties: map<OrderId, Parties>, caller: User, kind: ConversationType,
                                o: Option<OrderId>)
    : Peer
  {
    if kind.Support? || o.None? then NoPeer(BadRequest)
    else if o.value !in parties then NoPeer(NotFound)
    else ResolvePeer(parties[o.value], caller, kind)
  }

  /** The two ends of a thread of this kind, once both exist. */
  function Ends(p: Parties, kind: ConversationType): Option<(User, User)> {
    match kind
    case BuyerSeller => Some((p.buyer, p.seller))
    case BuyerDelivery => if p.driver.Some? then Some((p.buyer, p.driver.value)) else None
    case SellerDriver => if p.driver.Some? then Some((p.seller, p.driver.value)) else None
    case Support => None
  }

  /** Exactly the two ends of the kind are each other's peer, so deriving the peer twice gives the caller back, also
      when one person plays two parts; the peer is the caller only if both ends are one person. */
  lemma PeerIsTheOtherEnd(p: Parties, caller: User, kind: ConversationType, peer: User)
    ensures ResolvePeer(p, caller, kind) == Peer(peer) <==>
      Ends(p, kind) == Some((caller, peer)) || Ends(p, kind) == Some((peer, caller))
    ensures ResolvePeer(p, caller, kind) == Peer(peer) ==> ResolvePeer(p, peer, kind) == Peer(caller)
    ensures ResolvePeer(p, caller, kind) == Peer(peer) ==>
      (peer == caller <==> Ends(p, kind).value.0 == Ends(p, kind).value.1)
  {
  }

  // ---- Lookup ----

  predicate Joined(c: Conversation, u: User) {
    exists i :: 0 <= i < |c.participants| && c.participants[i].user == u
  }

  /** The filter of `findOrCreate`: same scope, both present, nobody else. */
  predicate IsPair(c: Conversation, kind: ConversationType, o: Option<OrderId>, a: User, b: User) {
    && c.kind == kind && c.order == o && Joined(c, a) && Joined(c, b)
    && forall i :: 0 <= i < |c.participants| ==> c.participants[i].user == a || c.participants[i].user == b
  }

  /** The filter of `ensureSellerDriverConversation` does not look for others. */
  predicate HasBoth(c: Conversation, kind: ConversationType, o: Option<OrderId>, a: User, b: User) {
    c.kind == kind && c.order == o && Joined(c, a) && Joined(c, b)
  }

  function FindPair(threads: seq<Conversation>, kind: ConversationType, o: Option<OrderId>, a: User, b: User)
    : (r: Option<ThreadId>)
    ensures r.Some? ==> r.value < |threads| && IsPair(threads[r.value], kind, o, a, b)
    ensures r.None? ==> forall t :: 0 <= t < |threads| ==> !IsPair(threads[t], kind, o, a, b)
  {
    if threads == [] then None
    else
      var n := |threads| - 1;
      var earlier := FindPair(threads[..n], kind, o, a, b);
      if earlier.Some? then earlier else if IsPair(threads[n], kind, o, a, b) then Some(n) else None
  }

  function FindBoth(threads: seq<Conversation>, kind: ConversationType, o: Option<OrderId>, a: User, b: User)
    : (r: Option<ThreadId>)
    ensures r.Some? ==> r.value < |threads| && HasBoth(threads[r.value], kind, o, a, b)
    ensures r.None? ==> forall t :: 0 <= t < |threads| ==> !HasBoth(threads[t], kind, o, a, b)
  {
    if threads == [] then None
    else
      var n := |threads| - 1;
      var earlier := FindBoth(threads[..n], kind, o, a, b);
      if earlier.Some? then earlier else if HasBoth(threads[n], kind, o, a, b) then Some(n) else None
  }

  // ---- Handlers ----

  function NewThread(kind: ConversationType, o: Option<OrderId>, a: User, b: User): Conversation {
    Conversation(kind, o, [Participant(a, 0, 0), Participant(b, 0, 0)], None)
  }

  /** An order id that is no order breaks a foreign key on insert. */
  function OpenWith(s: Chats, caller: User, kind: ConversationType, o: Option<OrderId>, peer: User): ChatReply {
    if caller == peer then ChatReply(s, Denied(BadRequest))
    else if peer !in s.users then ChatReply(s, Denied(NotFound))
    else
      var existing := FindPair(s.threads, kind, o, caller, peer);
      if existing.Some? then ChatReply(s, Opened(existing.value))
      else if o.Some? && o.value !in s.parties then ChatReply(s, Denied(Unavailable))
      else ChatReply(s.(threads := s.threads + [NewThread(kind, o, caller, peer)]), Opened(|s.threads|))
  }

  function OpenByRequest(s: Chats, caller: User, kind: ConversationType, o: Option<OrderId>,
                         peer: Option<User>): ChatReply
  {
    if caller !in s.users then ChatReply(s, Denied(NotFound))
    else if (kind.BuyerDelivery? || kind.SellerDriver?) && o.None? && peer.None? then ChatReply(s, Denied(BadRequest))
    else if peer.Some? then OpenWith(s, caller, kind, o, peer.value)
    else
      match ResolvePeerFromOrder(s.parties, caller, kind, o)
      case NoPeer(error) => ChatReply(s, Denied(error))
      case Peer(u) => OpenWith(s, caller, kind, o, u)
  }

  /** Never fails: without the order, or for a driver unknown or selling it, it does nothing. */
  function OpenOnClaim(s: Chats, o: OrderId, driver: User): ChatReply {
    if o !in s.parties || s.parties[o].seller == driver then ChatReply(s, Nothing)
    else
      var seller := s.parties[o].seller;
      var existing := FindBoth(s.threads, SellerDriver, Some(o), seller, driver);
      if existing.Some? then ChatReply(s, Opened(existing.value))
      else if seller !in s.users || driver !in s.users then ChatReply(s, Nothing)
      else ChatReply(s.(threads := s.threads + [NewThread(SellerDriver, Some(o), seller, driver)]), Opened(|s.threads|))
  }

  /** `assertParticipant` */
  function EntryError(s: Chats, caller: User, t: ThreadId): Option<Error> {
    if caller !in s.users then Some(NotFound)
    else if t >= |s.threads| || !Joined(s.threads[t], caller) then Some(Forbidden)
    else None
  }

  function WithRead(ps: seq<Participant>, u: User, mark: nat): (r: seq<Participant>)
    ensures |r| == |ps| && forall i :: 0 <= i < |ps| ==> r[i].user == ps[i].user
  {
    seq(|ps|, i requires 0 <= i < |ps| =>
      if ps[i].user == u then ps[i].(unreadCount := 0, readMark := mark) else ps[i])
  }

  function WithUnread(ps: seq<Participant>, sender: User): (r: seq<Participant>)
    ensures |r| == |ps| && forall i :: 0 <= i < |ps| ==> r[i].user == ps[i].user
  {
    seq(|ps|, i requires 0 <= i < |ps| =>
      if ps[i].user != sender then ps[i].(unreadCount := ps[i].unreadCount + 1) else ps[i])
  }

  /** The white space that `trim` strips. */
  predicate IsSpace(c: char) {
    c in " \t\n\r\U{000B}\U{000C}\U{00A0}\U{1680}\U{2028}\U{2029}\U{202F}\U{205F}\U{3000}\U{FEFF}"
    || '\U{2000}' <= c <= '\U{200A}'
  }

  function TrimLeft(s: string): string {
    if s != [] && IsSpace(s[0]) then TrimLeft(s[1..]) else s
  }

  function TrimRight(s: string): string {
    if s != [] && IsSpace(s[|s| - 1]) then TrimRight(s[..|s| - 1]) else s
  }

  const MAX_LENGTH := 4000

  /** The last-message preview: at most 200 characters, the last one an ellipsis when cut. */
  function Preview(content: string): (r: string)
    ensures |r| <= 200
  {
    if |content| > 200 then content[..197] + "\U{2026}" else content
  }

  function Deliver(s: Chats, caller: User, t: ThreadId, content: string): ChatReply {
    var trimmed := TrimRight(TrimLeft(content));
    var error := EntryError(s, caller, t);
    if trimmed == [] || |trimmed| > MAX_LENGTH then ChatReply(s, Denied(Forbidden))
    else if error.Some? then ChatReply(s, Denied(error.value))
    else
      var c := s.threads[t];
      ChatReply(s.(threads := s.threads[t := c.(participants := WithUnread(c.participants, caller),
                                                lastMessage := Some(Preview(trimmed)))],
                   messages := s.messages + [Message(t, caller, trimmed)]), Finished)
  }

  function Read(s: Chats, caller: User, t: ThreadId): ChatReply {
    var error := EntryError(s, caller, t);
    if error.Some? then ChatReply(s, Denied(error.value))
    else
      var c := s.threads[t];
      var c' := c.(participants := WithRead(c.participants, caller, |s.messages|));
      ChatReply(s.(threads := s.threads[t := c']), Finished)
  }

  function Handle(s: Chats, a: ChatAction): ChatReply {
    match a
    case UserJoins(u) => ChatReply(s.(users := s.users + {u}), Finished)
    case OrderChanges(o, p) => ChatReply(s.(parties := s.parties[o := p]), Finished)
    case FindOrCreate(caller, kind, o, peer) => OpenByRequest(s, caller, kind, o, peer)
    case EnsureSellerDriver(o, driver) => OpenOnClaim(s, o, driver)
    case MarkRead(caller, t) => Read(s, caller, t)
    case Send(caller, t, content) => Deliver(s, caller, t, content)
  }

  function Run(s: Chats, actions: seq<ChatAction>): Chats {
    if actions == [] then s else Handle(Run(s, actions[..|actions| - 1]), actions[|actions| - 1]).chats
  }

  // ---- The invariant ----

  /** Messages of the others in thread `t` from position `from` on. */
  function OthersSince(messages: seq<Message>, t: ThreadId, u: User, from: nat): nat {
    if |messages| <= from then 0
    else
      var last := messages[|messages| - 1];
      OthersSince(messages[..|messages| - 1], t, u, from) + if last.thread == t && last.sender != u then 1 else 0
  }

  function LastOf(messages: seq<Message>, t: ThreadId): Option<string> {
    if messages == [] then None
    else
      var last := messages[|messages| - 1];
      if last.thread == t then Some(Preview(last.content)) else LastOf(messages[..|messages| - 1], t)
  }

  predicate UnreadOk(p: Participant, messages: seq<Message>, t: ThreadId) {
    p.readMark <= |messages| && p.unreadCount == OthersSince(messages, t, p.user, p.readMark)
  }

  /** Two different people, their unread counters, and the preview of the last message. */
  predicate ThreadOk(c: Conversation, messages: seq<Message>, t: ThreadId) {
    && |c.participants| == 2
    && c.participants[0].user != c.participants[1].user
    && UnreadOk(c.participants[0], messages, t)
    && UnreadOk(c.participants[1], messages, t)
    && c.lastMessage == LastOf(messages, t)
  }

  ghost predicate SameThread(c: Conversation, d: Conversation) {
    && c.kind == d.kind && c.order == d.order
    && (forall u :: Joined(c, u) <==> Joined(d, u))
  }

  predicate ThreadsOk(threads: seq<Conversation>, messages: seq<Message>) {
    forall t :: 0 <= t < |threads| ==> ThreadOk(threads[t], messages, t)
  }

  ghost predicate Unique(threads: seq<Conversation>) {
    forall t, v :: 0 <= t < v < |threads| ==> !SameThread(threads[t], threads[v])
  }

  predicate MessagesOk(threads: nat, messages: seq<Message>) {
    forall i :: 0 <= i < |messages| ==> messages[i].thread < threads
  }

  ghost predicate ChatsOk(s: Chats) {
    ThreadsOk(s.threads, s.messages) && Unique(s.threads) && MessagesOk(|s.threads|, s.messages)
  }
}
