/** Chats over all runs: one thread per pair and scope, exact unread counters, and two routes to the same thread. */
module Threads {
  import opened Domain
  import opened Conversations

  // ---- Counting ----

  lemma OthersAfterAppend(messages: seq<Message>, m: Message, t: ThreadId, u: User, from: nat)
    requires from <= |messages|
    ensures OthersSince(messages + [m], t, u, from)
         == OthersSince(messages, t, u, from) + if m.thread == t && m.sender != u then 1 else 0
  {
    assert (messages + [m])[..|messages|] == messages;
  }

  lemma LastAfterAppend(messages: seq<Message>, m: Message, t: ThreadId)
    ensures LastOf(messages + [m], t) == if m.thread == t then Some(Preview(m.content)) else LastOf(messages, t)
  {
    assert (messages + [m])[..|messages|] == messages;
  }

  lemma {:induction false} NothingSaidYet(messages: seq<Message>, t: ThreadId, u: User, from: nat)
    requires MessagesOk(t, messages)
    ensures OthersSince(messages, t, u, from) == 0 && LastOf(messages, t).None?
  {
    if messages == [] {
    } else {
      NothingSaidYet(messages[..|messages| - 1], t, u, from);
    }
  }

  // ---- Every handler keeps the invariant ----

  /** A thread that changed neither kind, order nor people. */
  predicate SamePeople(a: Conversation, b: Conversation) {
    && a.kind == b.kind && a.order == b.order && |a.participants| == |b.participants|
    && forall i :: 0 <= i < |a.participants| ==> a.participants[i].user == b.participants[i].user
  }

  lemma SamePeopleJoin(a: Conversation, b: Conversation, u: User)
    requires SamePeople(a, b)
    ensures Joined(a, u) <==> Joined(b, u)
  {
    if Joined(a, u) {
      var i :| 0 <= i < |a.participants| && a.participants[i].user == u;
      assert b.participants[i].user == u;
    }
    if Joined(b, u) {
      var i :| 0 <= i < |b.participants| && b.participants[i].user == u;
      assert a.participants[i].user == u;
    }
  }

  lemma UpdateKeepsUnique(threads: seq<Conversation>, t: ThreadId, c: Conversation)
    requires Unique(threads) && t < |threads| && SamePeople(threads[t], c)
    ensures Unique(threads[t := c])
  {
    forall u ensures Joined(threads[t], u) <==> Joined(c, u) { SamePeopleJoin(threads[t], c, u); }
    var threads' := threads[t := c];
    forall i, j | 0 <= i < j < |threads'| ensures !SameThread(threads'[i], threads'[j]) {
      assert !SameThread(threads[i], threads[j]);
    }
  }

  lemma PairOfTwo(c: Conversation, a: User, b: User)
    requires |c.participants| == 2 && a != b && Joined(c, a) && Joined(c, b)
    ensures forall u :: Joined(c, u) <==> u == a || u == b
    ensures forall i :: 0 <= i < |c.participants| ==> c.participants[i].user == a || c.participants[i].user == b
  {
  }

  lemma NewThreadJoins(kind: ConversationType, o: Option<OrderId>, a: User, b: User, u: User)
    ensures Joined(NewThread(kind, o, a, b), u) <==> u == a || u == b
  {
    var c := NewThread(kind, o, a, b);
    assert c.participants[0].user == a && c.participants[1].user == b;
  }

  /** A thread opened when no thread of the scope has both people is a new one. */
  lemma OpeningKeepsOk(s: Chats, kind: ConversationType, o: Option<OrderId>, a: User, b: User)
    requires ChatsOk(s) && a != b
    requires forall t :: 0 <= t < |s.threads| ==> !HasBoth(s.threads[t], kind, o, a, b)
    ensures ChatsOk(s.(threads := s.threads + [NewThread(kind, o, a, b)]))
  {
    var n, c := |s.threads|, NewThread(kind, o, a, b);
    NothingSaidYet(s.messages, n, a, 0);
    NothingSaidYet(s.messages, n, b, 0);
    forall t | 0 <= t < n ensures !SameThread(s.threads[t], c) {
      NewThreadJoins(kind, o, a, b, a);
      NewThreadJoins(kind, o, a, b, b);
      assert !HasBoth(s.threads[t], kind, o, a, b);
    }
  }

  lemma NoPairNoBoth(s: Chats, kind: ConversationType, o: Option<OrderId>, a: User, b: User)
    requires ThreadsOk(s.threads, s.messages) && a != b
    requires forall t :: 0 <= t < |s.threads| ==> !IsPair(s.threads[t], kind, o, a, b)
    ensures forall t :: 0 <= t < |s.threads| ==> !HasBoth(s.threads[t], kind, o, a, b)
  {
    forall t | 0 <= t < |s.threads| && HasBoth(s.threads[t], kind, o, a, b) ensures false {
      assert ThreadOk(s.threads[t], s.messages, t);
      PairOfTwo(s.threads[t], a, b);
      assert IsPair(s.threads[t], kind, o, a, b);
    }
  }

  lemma OpenKeepsOk(s: Chats, caller: User, kind: ConversationType, o: Option<OrderId>, peer: User)
    requires ChatsOk(s)
    ensures ChatsOk(OpenWith(s, caller, kind, o, peer).chats)
  {
    if caller != peer && FindPair(s.threads, kind, o, caller, peer).None? {
      NoPairNoBoth(s, kind, o, caller, peer);
      OpeningKeepsOk(s, kind, o, caller, peer);
    }
  }

  lemma ClaimKeepsOk(s: Chats, o: OrderId, driver: User)
    requires ChatsOk(s)
    ensures ChatsOk(OpenOnClaim(s, o, driver).chats)
  {
    if o in s.parties && s.parties[o].seller != driver
      && FindBoth(s.threads, SellerDriver, Some(o), s.parties[o].seller, driver).None? {
      OpeningKeepsOk(s, SellerDriver, Some(o), s.parties[o].seller, driver);
    }
  }

  lemma ReadKeepsOk(s: Chats, caller: User, t: ThreadId)
    requires ChatsOk(s)
    ensures ChatsOk(Read(s, caller, t).chats)
  {
    if EntryError(s, caller, t).None? {
      var c := s.threads[t];
      assert ThreadOk(c, s.messages, t);
      UpdateKeepsUnique(s.threads, t, c.(participants := WithRead(c.participants, caller, |s.messages|)));
    }
  }

  lemma UnreadAfterSend(p: Participant, messages: seq<Message>, m: Message, t: ThreadId)
    requires UnreadOk(p, messages, t)
    ensures UnreadOk(if m.thread == t && p.user != m.sender then p.(unreadCount := p.unreadCount + 1) else p,
                     messages + [m], t)
  {
    OthersAfterAppend(messages, m, t, p.user, p.readMark);
  }

  lemma ThreadAfterSend(c: Conversation, messages: seq<Message>, m: Message, t: ThreadId)
    requires ThreadOk(c, messages, t)
    ensures ThreadOk(if m.thread == t
                     then c.(participants := WithUnread(c.participants, m.sender),
                             lastMessage := Some(Preview(m.content)))
                     else c, messages + [m], t)
  {
    UnreadAfterSend(c.participants[0], messages, m, t);
    UnreadAfterSend(c.participants[1], messages, m, t);
    LastAfterAppend(messages, m, t);
  }

  lemma SendKeepsOk(s: Chats, caller: User, t: ThreadId, content: string)
    requires ChatsOk(s)
    ensures ChatsOk(Deliver(s, caller, t, content).chats)
  {
    var trimmed := TrimRight(TrimLeft(content));
    if trimmed != [] && |trimmed| <= MAX_LENGTH && EntryError(s, caller, t).None? {
      var c, m := s.threads[t], Message(t, caller, trimmed);
      var c' := c.(participants := WithUnread(c.participants, caller), lastMessage := Some(Preview(trimmed)));
      UpdateKeepsUnique(s.threads, t, c');
      var threads', messages' := s.threads[t := c'], s.messages + [m];
      forall v | 0 <= v < |threads'| ensures ThreadOk(threads'[v], messages', v) {
        assert ThreadOk(s.threads[v], s.messages, v);
        ThreadAfterSend(s.threads[v], s.messages, m, v);
      }
    }
  }

  lemma StepKeepsChats(s: Chats, a: ChatAction)
    requires ChatsOk(s)
    ensures ChatsOk(Handle(s, a).chats)
  {
    match a
    case FindOrCreate(caller, kind, o, peer) =>
      var derived := ResolvePeerFromOrder(s.parties, caller, kind, o);
      if peer.Some? { OpenKeepsOk(s, caller, kind, o, peer.value); }
      else if derived.Peer? { OpenKeepsOk(s, caller, kind, o, derived.user); }
    case EnsureSellerDriver(o, driver) => ClaimKeepsOk(s, o, driver);
    case MarkRead(caller, t) => ReadKeepsOk(s, caller, t);
    case Send(caller, t, content) => SendKeepsOk(s, caller, t, content);
    case _ =>
  }

  const EMPTY := Chats({}, map[], [], [])

  lemma {:induction false} EveryRunKeepsChats(actions: seq<ChatAction>)
    ensures ChatsOk(Run(EMPTY, actions))
  {
    if actions == [] {
    } else {
      EveryRunKeepsChats(actions[..|actions| - 1]);
      StepKeepsChats(Run(EMPTY, actions[..|actions| - 1]), actions[|actions| - 1]);
    }
  }

  // ---- The theorems ----

  /** In every run there is at most one thread per kind, order and unordered pair, whoever opened it and by whichever
      route, and every thread has exactly two different people. */
  lemma OneThreadPerPair(actions: seq<ChatAction>, t: ThreadId, v: ThreadId, a: User, b: User)
    requires t < |Run(EMPTY, actions).threads| && v < |Run(EMPTY, actions).threads|
    requires var c, d := Run(EMPTY, actions).threads[t], Run(EMPTY, actions).threads[v];
      c.kind == d.kind && c.order == d.order && a != b && Joined(c, a) && Joined(c, b) && Joined(d, a) && Joined(d, b)
    ensures t == v
    ensures forall u :: Joined(Run(EMPTY, actions).threads[t], u) <==> u == a || u == b
  {
    EveryRunKeepsChats(actions);
    var s := Run(EMPTY, actions);
    assert ThreadOk(s.threads[t], s.messages, t) && ThreadOk(s.threads[v], s.messages, v);
    PairOfTwo(s.threads[t], a, b);
    PairOfTwo(s.threads[v], a, b);
    assert SameThread(s.threads[t], s.threads[v]) && SameThread(s.threads[v], s.threads[t]);
  }

  /** In every run a participant's counter is the number of messages the other one sent since the participant last
      marked the thread read, and the list view previews the thread's last message. */
  lemma UnreadIsExact(actions: seq<ChatAction>, t: ThreadId, i: nat)
    requires var s := Run(EMPTY, actions); t < |s.threads| && i < |s.threads[t].participants|
    ensures var s := Run(EMPTY, actions); CountersAreExact(s, t, i)
  {
    EveryRunKeepsChats(actions);
    CountersOf(Run(EMPTY, actions), t, i);
  }

  predicate CountersAreExact(s: Chats, t: ThreadId, i: nat)
    requires t < |s.threads| && i < |s.threads[t].participants|
  {
    var p := s.threads[t].participants[i];
    && p.unreadCount == OthersSince(s.messages, t, p.user, p.readMark)
    && s.threads[t].lastMessage == LastOf(s.messages, t)
  }

  lemma CountersOf(s: Chats, t: ThreadId, i: nat)
    requires ChatsOk(s) && t < |s.threads| && i < |s.threads[t].participants|
    ensures CountersAreExact(s, t, i)
  {
    assert ThreadOk(s.threads[t], s.messages, t);
    assert i == 0 || i == 1;
  }

  // ---- Who may speak ----

  lemma PeopleStay(s: Chats, a: ChatAction)
    ensures var threads' := Handle(s, a).chats.threads;
      |s.threads| <= |threads'| && forall t :: 0 <= t < |s.threads| ==> SamePeople(s.threads[t], threads'[t])
  {
  }

  /** Every message is in a thread that its sender is part of. */
  predicate SendersBelong(s: Chats) {
    forall i :: 0 <= i < |s.messages| ==>
      s.messages[i].thread < |s.threads| && Joined(s.threads[s.messages[i].thread], s.messages[i].sender)
  }

  lemma StepKeepsSenders(s: Chats, a: ChatAction)
    requires SendersBelong(s)
    ensures SendersBelong(Handle(s, a).chats)
  {
    var s' := Handle(s, a).chats;
    PeopleStay(s, a);
    forall i | 0 <= i < |s'.messages|
      ensures s'.messages[i].thread < |s'.threads|
              && Joined(s'.threads[s'.messages[i].thread], s'.messages[i].sender)
    {
      if i < |s.messages| {
        var m := s.messages[i];
        assert s'.messages[i] == m;
        SamePeopleJoin(s.threads[m.thread], s'.threads[m.thread], m.sender);
      } else {
        SamePeopleJoin(s.threads[a.thread], s'.threads[a.thread], a.caller);
      }
    }
  }

  /** In every run, whoever said something in a thread is one of its two people. */
  lemma {:induction false} SendersAreParticipants(actions: seq<ChatAction>)
    ensures SendersBelong(Run(EMPTY, actions))
  {
    if actions == [] {
    } else {
      SendersAreParticipants(actions[..|actions| - 1]);
      StepKeepsSenders(Run(EMPTY, actions[..|actions| - 1]), actions[|actions| - 1]);
    }
  }

  ghost predicate Blank(s: string, from: nat, to: nat)
    requires from <= to <= |s|
  {
    forall k :: from <= k < to ==> IsSpace(s[k])
  }

  ghost predicate CoreAt(core: string, s: string, i: nat) {
    && i + |core| <= |s| && core == s[i..i + |core|]
    && Blank(s, 0, i) && Blank(s, i + |core|, |s|)
  }

  /** The text between the outer white space. */
  ghost predicate IsCore(core: string, s: string) {
    && (exists i :: CoreAt(core, s, i))
    && (core != [] ==> !IsSpace(core[0]) && !IsSpace(core[|core| - 1]))
  }

  lemma {:induction false} LeftTrimmed(s: string)
    ensures |TrimLeft(s)| <= |s| && TrimLeft(s) == s[|s| - |TrimLeft(s)|..] && Blank(s, 0, |s| - |TrimLeft(s)|)
    ensures TrimLeft(s) != [] ==> !IsSpace(TrimLeft(s)[0])
  {
    if s != [] && IsSpace(s[0]) {
      var rest := s[1..];
      LeftTrimmed(rest);
      forall k | 0 <= k < |s| - |TrimLeft(s)| ensures IsSpace(s[k]) {
        if k > 0 { assert rest[k - 1] == s[k]; }
      }
    }
  }

  lemma {:induction false} RightTrimmed(s: string)
    ensures |TrimRight(s)| <= |s| && TrimRight(s) == s[..|TrimRight(s)|] && Blank(s, |TrimRight(s)|, |s|)
    ensures var r := TrimRight(s); r != [] ==> !IsSpace(r[|r| - 1])
  {
    if s != [] && IsSpace(s[|s| - 1]) {
      var rest := s[..|s| - 1];
      RightTrimmed(rest);
      forall k | |TrimRight(s)| <= k < |s| ensures IsSpace(s[k]) {
        if k < |rest| { assert rest[k] == s[k]; }
      }
    }
  }

  lemma TrimmedIsTheCore(s: string)
    ensures IsCore(TrimRight(TrimLeft(s)), s)
  {
    var t := TrimLeft(s);
    var i, core := |s| - |t|, TrimRight(t);
    LeftTrimmed(s);
    RightTrimmed(t);
    forall k | i + |core| <= k < |s| ensures IsSpace(s[k]) {
      assert t[k - i] == s[k];
    }
    assert CoreAt(core, s, i);
  }

  /** A message goes through exactly when a known user who is in the thread says something of at most 4000 characters
      besides the white space around it; then exactly that is kept, and otherwise nothing changes. */
  lemma SendsExactlyWhen(s: Chats, caller: User, t: ThreadId, content: string)
    ensures exists core :: IsCore(core, content) && SentAs(s, caller, t, content, core)
  {
    TrimmedIsTheCore(content);
    assert SentAs(s, caller, t, content, TrimRight(TrimLeft(content)));
  }

  predicate SentAs(s: Chats, caller: User, t: ThreadId, content: string, core: string) {
    var reply := Handle(s, Send(caller, t, content));
    if caller in s.users && t < |s.threads| && Joined(s.threads[t], caller) && 0 < |core| <= 4_000
    then
      && reply.outcome.Finished?
      && reply.chats.messages == s.messages + [Message(t, caller, core)]
      && |reply.chats.threads| == |s.threads|
      && (forall v :: 0 <= v < |s.threads| && v != t ==> reply.chats.threads[v] == s.threads[v])
      && AfterMessage(s.threads[t], reply.chats.threads[t], caller, core)
    else reply.outcome.Denied? && reply.chats == s
  }

  /** The same thread, previewing the message, which is one more to read for everybody but its sender. */
  predicate AfterMessage(c: Conversation, c': Conversation, sender: User, text: string) {
    && c'.kind == c.kind && c'.order == c.order && |c'.participants| == |c.participants|
    && c'.lastMessage == Some(if |text| <= 200 then text else text[..197] + "\U{2026}")
    && forall i :: 0 <= i < |c.participants| ==>
         var p := c.participants[i];
         c'.participants[i] == if p.user == sender then p else p.(unreadCount := p.unreadCount + 1)
  }

  /** Reading a thread clears the reader's counter up to the last message, and only the reader's. */
  lemma ReadsExactlyWhen(s: Chats, caller: User, t: ThreadId)
    ensures var reply := Handle(s, MarkRead(caller, t));
      if caller in s.users && t < |s.threads| && Joined(s.threads[t], caller)
      then
        && reply.outcome.Finished? && |reply.chats.threads| == |s.threads|
        && reply.chats.messages == s.messages
        && (forall v :: 0 <= v < |s.threads| && v != t ==> reply.chats.threads[v] == s.threads[v])
        && |reply.chats.threads[t].participants| == |s.threads[t].participants|
        && forall i :: 0 <= i < |s.threads[t].participants| ==>
             var p := s.threads[t].participants[i];
             reply.chats.threads[t].participants[i]
             == if p.user == caller then Participant(caller, 0, |s.messages|) else p
      else reply.outcome.Denied? && reply.chats == s
  {
  }

  /** A thread that a request opens is between the caller and the peer it names or, when it names none, the other end of
      the order's chat of that kind. */
  lemma OpenedThreadIsTheirs(s: Chats, caller: User, kind: ConversationType, o: Option<OrderId>, peer: Option<User>)
    requires Handle(s, FindOrCreate(caller, kind, o, peer)).outcome.Opened?
    ensures var reply := Handle(s, FindOrCreate(caller, kind, o, peer));
      var t := reply.outcome.thread;
      && t < |reply.chats.threads| && caller in s.users
      && exists other ::
           && other != caller && other in s.users && IsPair(reply.chats.threads[t], kind, o, caller, other)
           && (if peer.Some? then other == peer.value
               else o.Some? && o.value in s.parties
                    && (Ends(s.parties[o.value], kind) == Some((caller, other))
                        || Ends(s.parties[o.value], kind) == Some((other, caller))))
  {
    var other := if peer.Some? then peer.value else ResolvePeerFromOrder(s.parties, caller, kind, o).user;
    if peer.None? { PeerIsTheOtherEnd(s.parties[o.value], caller, kind, other); }
    var reply := Handle(s, FindOrCreate(caller, kind, o, peer));
    assert reply == OpenWith(s, caller, kind, o, other);
    NewThreadJoins(kind, o, caller, other, caller);
    NewThreadJoins(kind, o, caller, other, other);
    assert IsPair(reply.chats.threads[reply.outcome.thread], kind, o, caller, other);
  }

  // ---- Two routes to one thread ----

  predicate SellsTo(s: Chats, o: OrderId, driver: User) {
    && o in s.parties && s.parties[o].driver == Some(driver) && s.parties[o].seller != driver
    && driver in s.users && s.parties[o].seller in s.users
  }

  lemma PairIsUnique(s: Chats, kind: ConversationType, o: Option<OrderId>, a: User, b: User, t: ThreadId)
    requires ChatsOk(s) && a != b && t < |s.threads| && HasBoth(s.threads[t], kind, o, a, b)
    ensures FindPair(s.threads, kind, o, a, b) == Some(t) && FindPair(s.threads, kind, o, b, a) == Some(t)
    ensures FindBoth(s.threads, kind, o, a, b) == Some(t)
  {
    assert ThreadOk(s.threads[t], s.messages, t);
    PairOfTwo(s.threads[t], a, b);
    assert IsPair(s.threads[t], kind, o, a, b) && IsPair(s.threads[t], kind, o, b, a);
    forall v | 0 <= v < |s.threads| && HasBoth(s.threads[v], kind, o, a, b) ensures v == t {
      assert ThreadOk(s.threads[v], s.messages, v);
      PairOfTwo(s.threads[v], a, b);
      assert SameThread(s.threads[t], s.threads[v]) && SameThread(s.threads[v], s.threads[t]);
    }
    var p, q := FindPair(s.threads, kind, o, a, b), FindPair(s.threads, kind, o, b, a);
    assert HasBoth(s.threads[p.value], kind, o, a, b) && HasBoth(s.threads[q.value], kind, o, a, b);
  }

  /** The claim of a driver, the seller's request and the driver's request for an order all lead to one thread:
      whichever comes first opens it, and the others find it and change nothing. */
  lemma AllRoutesMeet(s: Chats, o: OrderId, driver: User)
    requires ChatsOk(s) && SellsTo(s, o, driver)
    ensures var seller := s.parties[o].seller;
      var routes := [EnsureSellerDriver(o, driver), FindOrCreate(seller, SellerDriver, Some(o), None),
                     FindOrCreate(driver, SellerDriver, Some(o), None)];
      forall i, j :: 0 <= i < 3 && 0 <= j < 3 ==>
        var first := Handle(s, routes[i]);
        first.outcome.Opened? && Handle(first.chats, routes[j]) == first
  {
    var seller := s.parties[o].seller;
    var routes := [EnsureSellerDriver(o, driver), FindOrCreate(seller, SellerDriver, Some(o), None),
                   FindOrCreate(driver, SellerDriver, Some(o), None)];
    forall i, j | 0 <= i < 3 && 0 <= j < 3
      ensures var first := Handle(s, routes[i]); first.outcome.Opened? && Handle(first.chats, routes[j]) == first
    {
      var first := Handle(s, routes[i]);
      RouteOpens(s, o, driver, routes[i]);
      StepKeepsChats(s, routes[i]);
      RouteFinds(first.chats, o, driver, first.outcome.thread, routes[j]);
    }
  }

  predicate IsRoute(a: ChatAction, o: OrderId, seller: User, driver: User) {
    || a == EnsureSellerDriver(o, driver)
    || a == FindOrCreate(seller, SellerDriver, Some(o), None)
    || a == FindOrCreate(driver, SellerDriver, Some(o), None)
  }

  lemma RouteOpens(s: Chats, o: OrderId, driver: User, a: ChatAction)
    requires ChatsOk(s) && SellsTo(s, o, driver) && IsRoute(a, o, s.parties[o].seller, driver)
    ensures var r := Handle(s, a);
      && r.outcome.Opened? && r.outcome.thread < |r.chats.threads|
      && HasBoth(r.chats.threads[r.outcome.thread], SellerDriver, Some(o), s.parties[o].seller, driver)
      && SellsTo(r.chats, o, driver) && r.chats.parties == s.parties
  {
    var seller := s.parties[o].seller;
    NewThreadJoins(SellerDriver, Some(o), seller, driver, seller);
    NewThreadJoins(SellerDriver, Some(o), seller, driver, driver);
    NewThreadJoins(SellerDriver, Some(o), driver, seller, seller);
    NewThreadJoins(SellerDriver, Some(o), driver, seller, driver);
  }

  lemma RouteFinds(s: Chats, o: OrderId, driver: User, t: ThreadId, a: ChatAction)
    requires ChatsOk(s) && SellsTo(s, o, driver) && IsRoute(a, o, s.parties[o].seller, driver)
    requires t < |s.threads| && HasBoth(s.threads[t], SellerDriver, Some(o), s.parties[o].seller, driver)
    ensures Handle(s, a) == ChatReply(s, Opened(t))
  {
    PairIsUnique(s, SellerDriver, Some(o), s.parties[o].seller, driver, t);
  }
}
