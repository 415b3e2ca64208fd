/** The invariants every reachable server state keeps, and what the handlers
    promise in such a state. */
module Invariants {
  import opened Types
  import opened Queue
  import opened Matchmaking
  import opened Sessions
  import opened Dispatch
  import opened ModeGuard

  /** Every queued identity is a connection the server has accepted. */
  ghost predicate QueuesKnown(s: Server)
  {
    forall x :: s.waiting.Holds(x) ==> x in s.ready
  }

  /** A connection waits in at most one queue, at most once. */
  ghost predicate QueuesUnique(s: Server)
  {
    forall x :: s.waiting.Count(x) <= 1
  }

  /** Every chat joins two distinct accepted connections. */
  ghost predicate ChatsWellFormed(s: Server)
  {
    forall c :: c in s.chats ==>
      && s.chats[c].user1 in s.ready
      && s.chats[c].user2 in s.ready
      && s.chats[c].user1 != s.chats[c].user2
  }

  /** A `chatId` stamp never dangles: it names a registered chat the stamped
      connection takes part in. */
  ghost predicate StampsResolve(s: Server)
  {
    forall x :: x in s.chatOf ==>
      && x in s.ready
      && s.chatOf[x] in s.chats
      && s.chats[s.chatOf[x]].Has(x)
  }

  /** Each queue holds at most one connection. The only enqueue appends the
      searcher to a queue the search has just found empty (or emptied of
      ghosts), so the server never builds a queue of two: ordering among
      several waiters is a property of the search on arbitrary queues, not
      of reachable states. */
  ghost predicate ShortQueues(s: Server)
  {
    forall m :: |s.waiting.Get(m)| <= 1
  }

  ghost predicate Valid(s: Server)
  {
    && QueuesKnown(s)
    && QueuesUnique(s)
    && ChatsWellFormed(s)
    && StampsResolve(s)
    && ShortQueues(s)
  }

  // ---- queue facts ----

  lemma SuffixMultiset(q: seq<ConnId>, k: nat)
    requires k <= |q|
    ensures multiset(q[k..]) <= multiset(q)
  {
    assert q == q[..k] + q[k..];
  }

  // ---- preservation ----

  lemma InitialValid()
    ensures Valid(Initial)
  {
  }

  lemma RemovePreservesValid(s: Server, u: ConnId)
    requires Valid(s)
    ensures Valid(RemoveFromWaiting(s, u))
  {
    var r := RemoveFromWaiting(s, u);
    RemovalCounts(s, u);
    forall x | r.waiting.Holds(x) ensures x in s.ready {
      assert r.waiting.voice == Without(s.waiting.voice, u) by {
        assert r.waiting.Get(Voice) == Without(s.waiting.Get(Voice), u);
      }
      assert r.waiting.text == Without(s.waiting.text, u) by {
        assert r.waiting.Get(Text) == Without(s.waiting.Get(Text), u);
      }
      assert x in r.waiting.voice ==> x in multiset(r.waiting.voice);
      assert x in r.waiting.text ==> x in multiset(r.waiting.text);
    }
  }

  /** A search that finds nobody open leaves the user as the queue's only entry. */
  lemma SettleWaitsValid(s: Server, u: ConnId, m: Mode, id: ChatId)
    requires Valid(s) && !s.waiting.Holds(u) && IsOpen(s.ready, u)
    requires ClosedPrefix(s.ready, s.waiting.Get(m)) == |s.waiting.Get(m)|
    ensures Valid(Settle(s, u, m, id))
  {
    var r := Settle(s, u, m, id);
    assert r == s.(waiting := s.waiting.Set(m, [u]));
    forall x ensures r.waiting.Count(x) <= 1 {
      r.waiting.CountSplit(m, x);
      s.waiting.CountSplit(m, x);
    }
    forall x | r.waiting.Holds(x) ensures x in s.ready {
      r.waiting.CountSplit(m, x);
      s.waiting.CountSplit(m, x);
    }
    forall m' ensures |r.waiting.Get(m')| <= 1 {
      if m' != m {
        assert m' == Other(m);
      }
    }
  }

  /** A search that pairs records a well-formed chat and keeps the invariants. */
  lemma SettlePairsValid(s: Server, u: ConnId, m: Mode, id: ChatId)
    requires Valid(s) && !s.waiting.Holds(u) && IsOpen(s.ready, u) && id !in s.chats
    requires ClosedPrefix(s.ready, s.waiting.Get(m)) < |s.waiting.Get(m)|
    ensures Valid(Settle(s, u, m, id))
  {
    var q := s.waiting.Get(m);
    var k := ClosedPrefix(s.ready, q);
    var r := Settle(s, u, m, id);
    assert r.waiting == s.waiting.Set(m, q[k + 1..]);
    assert r.ready == s.ready;
    PairedQueuesValid(s, r, u, m, k);
    assert r.chats == s.chats[id := Chat(u, q[k])];
    assert r.chatOf == s.chatOf[u := id][q[k] := id];
    s.waiting.CountSplit(m, u);
    PairedChatsValid(s, r, u, q[k], id);
  }

  /** The queues after a pairing: the prefix up to the partner is gone. */
  lemma PairedQueuesValid(s: Server, r: Server, u: ConnId, m: Mode, k: nat)
    requires Valid(s) && k < |s.waiting.Get(m)| && IsOpen(s.ready, s.waiting.Get(m)[k])
    requires r.waiting == s.waiting.Set(m, s.waiting.Get(m)[k + 1..]) && r.ready == s.ready
    ensures QueuesKnown(r) && QueuesUnique(r) && ShortQueues(r)
  {
    var q := s.waiting.Get(m);
    SuffixMultiset(q, k + 1);
    forall x ensures r.waiting.Count(x) <= 1 {
      r.waiting.CountSplit(m, x);
      s.waiting.CountSplit(m, x);
    }
    forall x | r.waiting.Holds(x) ensures x in s.ready {
      r.waiting.CountSplit(m, x);
      s.waiting.CountSplit(m, x);
      assert x in q[k + 1..] ==> x in multiset(q);
    }
    forall m' ensures |r.waiting.Get(m')| <= 1 {
      if m' != m {
        assert m' == Other(m);
      }
    }
  }

  /** The chats and stamps after a pairing: one new chat, both sides stamped with it. */
  lemma PairedChatsValid(s: Server, r: Server, u: ConnId, p: ConnId, id: ChatId)
    requires Valid(s) && IsOpen(s.ready, u) && IsOpen(s.ready, p) && u != p && id !in s.chats
    requires r.ready == s.ready
    requires r.chats == s.chats[id := Chat(u, p)] && r.chatOf == s.chatOf[u := id][p := id]
    ensures ChatsWellFormed(r) && StampsResolve(r)
  {
  }

  lemma SearchPreservesValid(s: Server, u: ConnId, m: Mode, id: ChatId)
    requires Valid(s) && IsOpen(s.ready, u) && id !in s.chats
    ensures Valid(Search(s, u, m, id))
  {
    SearchClosedForm(s, u, m, id);
    var s1 := RemoveFromWaiting(s, u);
    RemovePreservesValid(s, u);
    if ClosedPrefix(s1.ready, s1.waiting.Get(m)) < |s1.waiting.Get(m)| {
      SettlePairsValid(s1, u, m, id);
    } else {
      SettleWaitsValid(s1, u, m, id);
    }
  }

  lemma EndChatPreservesValid(s: Server, u: ConnId)
    requires Valid(s)
    ensures Valid(HandleEndChat(s, u))
  {
    var r := HandleEndChat(s, u);
    if InActiveChat(s, u) {
      var c := s.chatOf[u];
      forall x | x in r.chatOf
        ensures x in r.ready && r.chatOf[x] in r.chats && r.chats[r.chatOf[x]].Has(x)
      {
        assert !s.chats[c].Has(x);
        assert r.chatOf[x] == s.chatOf[x];
      }
    }
  }

  lemma OnConnectPreservesValid(s: Server, id: ConnId)
    requires Valid(s) && id !in s.ready
    ensures Valid(OnConnect(s, id))
  {
  }

  lemma LosePreservesValid(s: Server, id: ConnId)
    requires Valid(s)
    ensures Valid(Lose(s, id))
  {
  }

  lemma MessagePreservesValid(s: Server, u: ConnId, e: Envelope, id: ChatId)
    requires Valid(s) && id !in s.chats
    ensures Valid(HandleMessage(s, u, e, id))
  {
    var r := HandleMessage(s, u, e, id);
    if e.kind == "start_search" {
      if IsOpen(s.ready, u) && ParseMode(e.mode).Some? {
        assert r == Search(s, u, ParseMode(e.mode).value, id);
        SearchPreservesValid(s, u, ParseMode(e.mode).value, id);
      }
    } else if e.kind == "cancel_search" {
      RemovePreservesValid(s, u);
    } else if e.kind == "end_chat" {
      EndChatPreservesValid(s, u);
    } else if e.kind == "text_message" {
      assert r.(outbox := s.outbox) == s;
    }
  }

  /** The search as written, inherited mode names included, keeps the
      invariants as well: on such a name it only removes the requester. */
  lemma AsWrittenPreservesValid(s: Server, u: ConnId, mode: string, id: ChatId)
    requires Valid(s) && id !in s.chats
    ensures Valid(HandleStartSearchAsWritten(s, u, mode, id))
  {
    if IsOpen(s.ready, u) {
      match LookupWaiting(mode)
      case Missing =>
      case Inherited => RemovePreservesValid(s, u);
      case OwnQueue(m) => SearchPreservesValid(s, u, m, id);
    }
  }

  lemma ClosePreservesValid(s: Server, id: ConnId)
    requires Valid(s)
    ensures Valid(HandleDisconnection(Lose(s, id), id))
  {
    LosePreservesValid(s, id);
    RemovePreservesValid(Lose(s, id), id);
    EndChatPreservesValid(RemoveFromWaiting(Lose(s, id), id), id);
  }

  /** Every turn of the event loop keeps the invariants. */
  lemma StepPreservesValid(s: Server, i: Input)
    requires Valid(s) && Admissible(s, i)
    ensures Valid(Step(s, i))
  {
    match i
    case Connect(id) => OnConnectPreservesValid(s, id);
    case Message(u, e, id) => MessagePreservesValid(s, u, e, id);
    case Drop(id) => LosePreservesValid(s, id);
    case Close(id) => ClosePreservesValid(s, id);
  }

  // ---- what the handlers promise in a reachable state ----

  /** A relayed message goes to the other participant of the sender's chat,
      never back to the sender. */
  lemma RelayToPartnerOnly(s: Server, sender: ConnId, content: string)
    requires Valid(s)
    ensures var r := HandleTextMessage(s, sender, content);
            |r.outbox| > |s.outbox| ==>
              var to := r.outbox[|s.outbox|].to;
              && to != sender
              && s.chats[s.chatOf[sender]].Has(to)
              && s.chats[s.chatOf[sender]].Has(sender)
  {
  }

  /** Ending a chat notifies the other participant only, and clears the
      stamps of both sides. */
  lemma EndChatClearsBoth(s: Server, u: ConnId)
    requires Valid(s) && InActiveChat(s, u)
    ensures var r := HandleEndChat(s, u);
            && Counterpart(s, u) != u
            && u !in r.chatOf
            && Counterpart(s, u) !in r.chatOf
            && s.chatOf[u] !in r.chats
  {
  }

  /** After a disconnection the user waits nowhere, holds no chat id, and the
      chat it was in is gone; every other chat is untouched. */
  lemma DisconnectClears(s: Server, u: ConnId)
    requires Valid(s)
    ensures var r := HandleDisconnection(s, u);
            && !r.waiting.Holds(u)
            && u !in r.chatOf
            && (u in s.chatOf ==> s.chatOf[u] !in r.chats)
            && forall d :: d in s.chats && !(u in s.chatOf && d == s.chatOf[u]) ==> d in r.chats && r.chats[d] == s.chats[d]
  {
    var s1 := RemoveFromWaiting(s, u);
    RemovePreservesValid(s, u);
    if InActiveChat(s1, u) {
      EndChatClearsBoth(s1, u);
    }
  }
}
