/** The chat services on their tables. */
module Messaging {
  import opened Domain
  import opened Conversations
  import opened Threads

  class ConversationsService {
    var users: set<User>
    var parties: map<OrderId, Parties>
    var threads: seq<Conversation>
    var messages: seq<Message>

    constructor ()
      ensures Snapshot() == EMPTY && Valid()
    {
      users, parties, threads, messages := {}, map[], [], [];
    }

    ghost function Snapshot(): Chats
      reads this
    {
      Chats(users, parties, threads, messages)
    }

    ghost predicate Valid()
      reads this
    {
      ChatsOk(Snapshot())
    }

    twostate predicate Answers(a: ChatAction, outcome: ChatOutcome)
      reads this
    {
      ChatReply(Snapshot(), outcome) == Handle(old(Snapshot()), a) && Valid()
    }

    /** `findFirst` with the filter of `findOrCreate` */
    method FindExisting(kind: ConversationType, o: Option<OrderId>, a: User, b: User)
      returns (existing: Option<ThreadId>)
      ensures existing == FindPair(threads, kind, o, a, b)
    {
      for t := 0 to |threads|
        invariant FindPair(threads[..t], kind, o, a, b).None?
      {
        assert threads[..t + 1][..t] == threads[..t];
        if IsPair(threads[t], kind, o, a, b) {
          FirstPairStays(threads, kind, o, a, b, t + 1);
          return Some(t);
        }
      }
      assert threads[..|threads|] == threads;
      existing := None;
    }

    method FindOrCreate(caller: User, kind: ConversationType, o: Option<OrderId>, peer: Option<User>)
      returns (outcome: ChatOutcome)
      requires Valid()
      modifies this
      ensures Answers(ChatAction.FindOrCreate(caller, kind, o, peer), outcome)
    {
      StepKeepsChats(Snapshot(), ChatAction.FindOrCreate(caller, kind, o, peer));
      if caller !in users { return Denied(NotFound); }
      if (kind.BuyerDelivery? || kind.SellerDriver?) && o.None? && peer.None? { return Denied(BadRequest); }
      var peerUser: User;
      if peer.Some? {
        peerUser := peer.value;
      } else {
        var derived := ResolvePeerFromOrder(parties, caller, kind, o);
        if derived.NoPeer? { return Denied(derived.error); }
        peerUser := derived.user;
      }
      if caller == peerUser { return Denied(BadRequest); }
      if peerUser !in users { return Denied(NotFound); }
      var existing := FindExisting(kind, o, caller, peerUser);
      if existing.Some? { return Opened(existing.value); }
      if o.Some? && o.value !in parties { return Denied(Unavailable); }
      outcome := Opened(|threads|);
      threads := threads + [NewThread(kind, o, caller, peerUser)];
    }

    method EnsureSellerDriverConversation(o: OrderId, driver: User) returns (outcome: ChatOutcome)
      requires Valid()
      modifies this
      ensures Answers(EnsureSellerDriver(o, driver), outcome)
    {
      StepKeepsChats(Snapshot(), EnsureSellerDriver(o, driver));
      if o !in parties || parties[o].seller == driver { return Nothing; }
      var seller := parties[o].seller;
      var existing := FindBoth(threads, SellerDriver, Some(o), seller, driver);
      if existing.Some? { return Opened(existing.value); }
      if seller !in users || driver !in users { return Nothing; }
      outcome := Opened(|threads|);
      threads := threads + [NewThread(SellerDriver, Some(o), seller, driver)];
    }

    method AssertParticipant(caller: User, t: ThreadId) returns (error: Option<Error>)
      ensures error == EntryError(Snapshot(), caller, t)
    {
      if caller !in users { return Some(NotFound); }
      if t >= |threads| || !Joined(threads[t], caller) { return Some(Forbidden); }
      error := None;
    }

    /** Resets the caller's counter only. */
    method MarkRead(caller: User, t: ThreadId) returns (outcome: ChatOutcome)
      requires Valid()
      modifies this
      ensures Answers(ChatAction.MarkRead(caller, t), outcome)
    {
      StepKeepsChats(Snapshot(), ChatAction.MarkRead(caller, t));
      var error := AssertParticipant(caller, t);
      if error.Some? { return Denied(error.value); }
      var c := threads[t];
      threads := threads[t := c.(participants := WithRead(c.participants, caller, |messages|))];
      outcome := Finished;
    }
  }

  lemma {:induction false} FirstPairStays(threads: seq<Conversation>, kind: ConversationType, o: Option<OrderId>,
                                          a: User, b: User, n: nat)
    requires n <= |threads| && FindPair(threads[..n], kind, o, a, b).Some?
    ensures FindPair(threads, kind, o, a, b) == FindPair(threads[..n], kind, o, a, b)
  {
    if n == |threads| {
      assert threads[..n] == threads;
    } else {
      var m := |threads| - 1;
      assert threads[..m][..n] == threads[..n];
      FirstPairStays(threads[..m], kind, o, a, b, n);
    }
  }

  class MessagesService {
    const conversations: ConversationsService

    constructor (conversations: ConversationsService)
      ensures this.conversations == conversations
    {
      this.conversations := conversations;
    }

    /** Persists the message, refreshes the preview and bumps the others' counters, in one transaction. */
    method Send(caller: User, t: ThreadId, content: string) returns (outcome: ChatOutcome)
      requires conversations.Valid()
      modifies conversations
      ensures conversations.Answers(ChatAction.Send(caller, t, content), outcome)
    {
      StepKeepsChats(conversations.Snapshot(), ChatAction.Send(caller, t, content));
      var trimmed := TrimRight(TrimLeft(content));
      if |trimmed| == 0 { return Denied(Forbidden); }
      if |trimmed| > MAX_LENGTH { return Denied(Forbidden); }
      var error := conversations.AssertParticipant(caller, t);
      if error.Some? { return Denied(error.value); }
      conversations.messages := conversations.messages + [Message(t, caller, trimmed)];
      var c := conversations.threads[t].(lastMessage := Some(Preview(trimmed)));
      conversations.threads := conversations.threads[t := c.(participants := WithUnread(c.participants, caller))];
      outcome := Finished;
    }
  }
}
