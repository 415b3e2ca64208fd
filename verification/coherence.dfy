/** Two properties a matchmaking server is expected to keep, which this
    server does not keep on its own: a connection is never queued while it
    holds a chat, and every chat is named by the stamps of both its
    participants. `handleStartSearch`
    (index.js:69-117) neither ends nor clears the requester's current chat, so
    both hold only while searches come from connections without a chat. */
module Coherence {
  import opened Types
  import opened Queue
  import opened Matchmaking
  import opened Sessions
  import opened Dispatch
  import opened Invariants
  import opened ModeGuard

  /** No connection is queued while it holds a chat id. */
  ghost predicate Separated(s: Server)
  {
    forall x :: s.waiting.Holds(x) ==> x !in s.chatOf
  }

  /** Each chat resolves back to itself from both participants. */
  ghost predicate Mutual(s: Server)
  {
    forall c :: c in s.chats ==>
      && s.chats[c].user1 in s.chatOf && s.chatOf[s.chats[c].user1] == c
      && s.chats[c].user2 in s.chatOf && s.chatOf[s.chats[c].user2] == c
  }

  ghost predicate Coherent(s: Server)
  {
    Separated(s) && Mutual(s)
  }

  /** An assumption on the inputs, not something the server enforces or the
      client guarantees: a search is requested only by a connection without a
      chat. */
  predicate SearchesWhenIdle(s: Server, i: Input)
  {
    match i
    case Message(u, e, _) => e.kind == "start_search" ==> u !in s.chatOf
    case _ => true
  }

  lemma RemovePreservesCoherent(s: Server, u: ConnId)
    requires Coherent(s)
    ensures Coherent(RemoveFromWaiting(s, u))
  {
    var r := RemoveFromWaiting(s, u);
    forall x | r.waiting.Holds(x) ensures x !in r.chatOf {
      RemovalCounts(s, u);
      r.waiting.CountSplit(Voice, x);
      s.waiting.CountSplit(Voice, x);
    }
  }

  lemma EndChatPreservesCoherent(s: Server, u: ConnId)
    requires Valid(s) && Coherent(s)
    ensures Coherent(HandleEndChat(s, u))
  {
    var r := HandleEndChat(s, u);
    if InActiveChat(s, u) {
      var c0 := s.chatOf[u];
      forall c | c in r.chats
        ensures && r.chats[c].user1 in r.chatOf && r.chatOf[r.chats[c].user1] == c
                && r.chats[c].user2 in r.chatOf && r.chatOf[r.chats[c].user2] == c
      {
        assert c != c0;
        assert !s.chats[c0].Has(s.chats[c].user1);
        assert !s.chats[c0].Has(s.chats[c].user2);
      }
    }
  }

  /** A search by a connection without a chat keeps both properties. */
  lemma SearchPreservesCoherent(s: Server, u: ConnId, m: Mode, id: ChatId)
    requires Valid(s) && Coherent(s) && IsOpen(s.ready, u) && u !in s.chatOf && id !in s.chats
    ensures Coherent(Search(s, u, m, id))
  {
    SearchClosedForm(s, u, m, id);
    var s1 := RemoveFromWaiting(s, u);
    RemovePreservesValid(s, u);
    RemovePreservesCoherent(s, u);
    var q := s1.waiting.Get(m);
    var k := ClosedPrefix(s1.ready, q);
    var r := Settle(s1, u, m, id);
    if k < |q| {
      assert r.waiting == s1.waiting.Set(m, q[k + 1..]);
      assert r.chats == s1.chats[id := Chat(u, q[k])];
      assert r.chatOf == s1.chatOf[u := id][q[k] := id];
      PairedCoherent(s1, r, u, m, k, id);
    } else {
      assert r == s1.(waiting := s1.waiting.Set(m, [u]));
      WaitingCoherent(s1, r, u, m);
    }
  }

  lemma WaitingCoherent(s: Server, r: Server, u: ConnId, m: Mode)
    requires Coherent(s) && u !in s.chatOf
    requires r == s.(waiting := s.waiting.Set(m, [u]))
    ensures Coherent(r)
  {
    forall x | r.waiting.Holds(x) ensures x !in r.chatOf {
      r.waiting.CountSplit(m, x);
      s.waiting.CountSplit(m, x);
    }
  }

  lemma PairedCoherent(s: Server, r: Server, u: ConnId, m: Mode, k: nat, id: ChatId)
    requires QueuesUnique(s) && Coherent(s) && u !in s.chatOf && !s.waiting.Holds(u) && id !in s.chats
    requires k < |s.waiting.Get(m)|
    requires var q := s.waiting.Get(m);
             && r.waiting == s.waiting.Set(m, q[k + 1..])
             && r.chats == s.chats[id := Chat(u, q[k])]
             && r.chatOf == s.chatOf[u := id][q[k] := id]
    ensures Coherent(r)
  {
    var q := s.waiting.Get(m);
    s.waiting.CountSplit(m, q[k]);
    assert q[k] !in s.chatOf;
    PartnerLeavesQueues(s.waiting, m, k);
    PairedSeparated(s, r, u, m, k, id);
  }

  lemma PairedSeparated(s: Server, r: Server, u: ConnId, m: Mode, k: nat, id: ChatId)
    requires Separated(s) && !s.waiting.Holds(u)
    requires k < |s.waiting.Get(m)|
    requires var q := s.waiting.Get(m);
             && q[k] !in q[k + 1..] && q[k] !in s.waiting.Get(Other(m))
             && r.waiting == s.waiting.Set(m, q[k + 1..])
             && r.chatOf == s.chatOf[u := id][q[k] := id]
    ensures Separated(r)
  {
    var q := s.waiting.Get(m);
    forall x | r.waiting.Holds(x) ensures x !in r.chatOf {
      r.waiting.CountSplit(m, x);
      s.waiting.CountSplit(m, x);
      if x in q[k + 1..] {
        SuffixMultiset(q, k + 1);
        assert x in multiset(q);
      }
    }
  }

  /** A connection queued once is no longer queued once it is taken out. */
  lemma PartnerLeavesQueues(w: Queues, m: Mode, k: nat)
    requires k < |w.Get(m)| && w.Count(w.Get(m)[k]) <= 1
    ensures var q := w.Get(m);
            q[k] !in q[k + 1..] && q[k] !in w.Get(Other(m))
  {
    var q := w.Get(m);
    var p := q[k];
    w.CountSplit(m, p);
    assert q == q[..k + 1] + q[k + 1..];
    assert multiset(q)[p] == multiset(q[..k + 1])[p] + multiset(q[k + 1..])[p];
    assert p in q[..k + 1];
  }

  lemma MessagePreservesCoherent(s: Server, u: ConnId, e: Envelope, id: ChatId)
    requires Valid(s) && Coherent(s) && id !in s.chats
    requires e.kind == "start_search" ==> u !in s.chatOf
    ensures Coherent(HandleMessage(s, u, e, id))
  {
    var r := HandleMessage(s, u, e, id);
    if e.kind == "start_search" {
      if IsOpen(s.ready, u) && ParseMode(e.mode).Some? {
        assert r == Search(s, u, ParseMode(e.mode).value, id);
        SearchPreservesCoherent(s, u, ParseMode(e.mode).value, id);
      }
    } else if e.kind == "cancel_search" {
      RemovePreservesCoherent(s, u);
    } else if e.kind == "end_chat" {
      EndChatPreservesCoherent(s, u);
    } else if e.kind == "text_message" {
      assert r.(outbox := s.outbox) == s;
    }
  }

  /** The search as written keeps both properties under the same assumption. */
  lemma AsWrittenPreservesCoherent(s: Server, u: ConnId, mode: string, id: ChatId)
    requires Valid(s) && Coherent(s) && u !in s.chatOf && id !in s.chats
    ensures Coherent(HandleStartSearchAsWritten(s, u, mode, id))
  {
    if IsOpen(s.ready, u) {
      match LookupWaiting(mode)
      case Missing =>
      case Inherited => RemovePreservesCoherent(s, u);
      case OwnQueue(m) => SearchPreservesCoherent(s, u, m, id);
    }
  }

  lemma ClosePreservesCoherent(s: Server, id: ConnId)
    requires Valid(s) && Coherent(s)
    ensures Coherent(HandleDisconnection(Lose(s, id), id))
  {
    LosePreservesValid(s, id);
    RemovePreservesValid(Lose(s, id), id);
    RemovePreservesCoherent(Lose(s, id), id);
    EndChatPreservesCoherent(RemoveFromWaiting(Lose(s, id), id), id);
  }

  /** Every turn of the event loop keeps both properties, provided searches
      come only from connections without a chat. */
  lemma StepPreservesCoherent(s: Server, i: Input)
    requires Valid(s) && Coherent(s) && Admissible(s, i) && SearchesWhenIdle(s, i)
    ensures Coherent(Step(s, i))
  {
    match i
    case Connect(id) =>
    case Message(u, e, id) => MessagePreservesCoherent(s, u, e, id);
    case Drop(id) =>
    case Close(id) => ClosePreservesCoherent(s, id);
  }

  /** Users 1 and 2 share chat 10 and user 3 waits for a voice partner. */
  const InChat := Server(map[1 := true, 2 := true, 3 := true], map[1 := 10, 2 := 10],
                         Queues([3], []), map[10 := Chat(1, 2)], [])

  /** ... and user 1 starts a voice search, the server drawing chat id 11. */
  const SearchFromChat := Message(1, Envelope("start_search", "voice", ""), 11)

  lemma InChatCoherent()
    ensures Valid(InChat) && Coherent(InChat)
  {
  }

  lemma SearchFromChatResult()
    ensures var s1 := Step(InChat, SearchFromChat);
            && s1.chats == InChat.chats[11 := Chat(1, 3)]
            && s1.chatOf == InChat.chatOf[1 := 11][3 := 11]
            && s1.ready == InChat.ready
  {
    assert Without([3], 1) == [3];
    assert ClosedPrefix(InChat.ready, [3]) == 0;
    StartSearchPairs(InChat, 1, "voice", Voice, 11);
    assert Step(InChat, SearchFromChat) == HandleStartSearch(InChat, 1, "voice", 11);
  }

  /** Searching from inside a chat. The server pairs user 1 with user 3 in
      chat 11 without ending chat 10, so chat 10 stays registered while user 1
      now names chat 11. User 2's messages still reach user 1, and when user 2
      ends chat 10, user 1's stamp is cleared although its chat with 3 is
      still registered, so user 1 can no longer talk to 3. */
  lemma SearchFromChatLeavesStaleChat()
    ensures var s1 := Step(InChat, SearchFromChat);
            var s2 := HandleEndChat(s1, 2);
            && Valid(InChat) && Coherent(InChat)
            && Valid(s1) && !Coherent(s1)
            && 10 in s1.chats && s1.chats[10] == Chat(1, 2)
            && 11 in s1.chats && s1.chats[11] == Chat(1, 3)
            && 1 in s1.chatOf && s1.chatOf[1] == 11
            && HandleTextMessage(s1, 2, "hi").outbox == s1.outbox + [Send(1, TextMessage("hi"))]
            && 1 !in s2.chatOf && 11 in s2.chats
  {
    InChatCoherent();
    StepPreservesValid(InChat, SearchFromChat);
    SearchFromChatResult();
    var s1 := Step(InChat, SearchFromChat);
    assert s1.chats[10] == Chat(1, 2);
    assert s1.chatOf[1] == 11;
    assert !Mutual(s1);
    StaleChatEffects(s1, 1, 2, 10, 11, "hi");
  }

  /** A chat whose first participant has moved on still carries the other
      participant's messages to it, and ending it clears the moved participant's
      stamp. */
  lemma StaleChatEffects(s: Server, a: ConnId, b: ConnId, c: ChatId, d: ChatId, msg: string)
    requires c in s.chats && s.chats[c].Has(a) && s.chats[c].Has(b) && a != b
    requires d in s.chats && d != c
    requires b in s.chatOf && s.chatOf[b] == c && IsOpen(s.ready, a)
    ensures HandleTextMessage(s, b, msg).outbox == s.outbox + [Send(a, TextMessage(msg))]
    ensures a !in HandleEndChat(s, b).chatOf && d in HandleEndChat(s, b).chats
  {
  }
}
