/** Chat teardown and relay: `handleTextMessage`, `cleanupChat`,
    `handleEndChat` and `handleDisconnection` (index.js:119-155, 170-173). */
module Sessions {
  import opened Types
  import opened Queue
  import opened Matchmaking

  /** Whether `u` is stamped with a chat that is still in the registry
      (the test `!chatId || !activeChats[chatId]` failing). */
  predicate InActiveChat(s: Server, u: ConnId)
  {
    u in s.chatOf && s.chatOf[u] in s.chats
  }

  /** The participant a message or a departure notice from `u` is addressed to. */
  function Counterpart(s: Server, u: ConnId): ConnId
    requires InActiveChat(s, u)
  {
    s.chats[s.chatOf[u]].PartnerOf(u)
  }

  /** `handleTextMessage(sender, content)`: forward the content to the other
      participant if that transport is open; nothing else changes. */
  function HandleTextMessage(s: Server, sender: ConnId, content: string): (r: Server)
    ensures r.(outbox := s.outbox) == s
    ensures |s.outbox| <= |r.outbox| <= |s.outbox| + 1
    ensures r.outbox[..|s.outbox|] == s.outbox
    ensures |r.outbox| > |s.outbox| <==> InActiveChat(s, sender) && IsOpen(s.ready, Counterpart(s, sender))
    ensures |r.outbox| > |s.outbox| ==>
              r.outbox[|s.outbox|] == Send(Counterpart(s, sender), TextMessage(content))
  {
    if !InActiveChat(s, sender) then s
    else
      var receiver := Counterpart(s, sender);
      if IsOpen(s.ready, receiver) then
        s.(outbox := s.outbox + [Send(receiver, TextMessage(content))])
      else s
  }

  /** `cleanupChat(chatId)`: clear both participants' `chatId` and delete the record. */
  function CleanupChat(s: Server, c: ChatId): (r: Server)
    ensures c !in r.chats
    ensures forall d :: d != c ==> (d in r.chats <==> d in s.chats)
    ensures forall d :: d != c && d in s.chats ==> r.chats[d] == s.chats[d]
    ensures c in s.chats ==> forall x :: s.chats[c].Has(x) ==> x !in r.chatOf
    ensures c in s.chats ==> forall x :: !s.chats[c].Has(x) ==>
              (x in r.chatOf <==> x in s.chatOf) && (x in r.chatOf ==> r.chatOf[x] == s.chatOf[x])
    ensures c !in s.chats ==> r == s
    ensures r.ready == s.ready && r.waiting == s.waiting && r.outbox == s.outbox
  {
    if c in s.chats then
      var chat := s.chats[c];
      s.(chatOf := s.chatOf - {chat.user1, chat.user2}, chats := s.chats - {c})
    else s
  }

  /** `handleEndChat(user)`: notify the other participant if it is open, then
      clean the chat up. A user with no active chat changes nothing. */
  function HandleEndChat(s: Server, u: ConnId): (r: Server)
    ensures !InActiveChat(s, u) ==> r == s
    ensures InActiveChat(s, u) ==>
              && r.chats.Keys == s.chats.Keys - {s.chatOf[u]}
              && r.outbox == s.outbox + (if IsOpen(s.ready, Counterpart(s, u))
                                         then [Send(Counterpart(s, u), PartnerDisconnected)] else [])
              && !InActiveChat(r, u)
              && Counterpart(s, u) !in r.chatOf
    ensures InActiveChat(s, u) ==> forall x :: !s.chats[s.chatOf[u]].Has(x) ==>
              (x in r.chatOf <==> x in s.chatOf) && (x in r.chatOf ==> r.chatOf[x] == s.chatOf[x])
    ensures r.ready == s.ready && r.waiting == s.waiting
    ensures r.chatOf.Keys <= s.chatOf.Keys
    ensures forall d :: d in r.chats ==> d in s.chats && r.chats[d] == s.chats[d]
  {
    if !InActiveChat(s, u) then s
    else
      var c := s.chatOf[u];
      var partner := Counterpart(s, u);
      var s1 := if IsOpen(s.ready, partner)
                then s.(outbox := s.outbox + [Send(partner, PartnerDisconnected)])
                else s;
      CleanupChat(s1, c)
  }

  /** `handleDisconnection(user)`: leave every queue, then end the current chat. */
  function HandleDisconnection(s: Server, u: ConnId): (r: Server)
    ensures !r.waiting.Holds(u)
    ensures forall m :: r.waiting.Get(m) == Without(s.waiting.Get(m), u)
    ensures !InActiveChat(r, u)
    ensures r.ready == s.ready
    ensures forall d :: d in s.chats && !(u in s.chatOf && d == s.chatOf[u]) ==> d in r.chats && r.chats[d] == s.chats[d]
    ensures forall d :: d in r.chats ==> d in s.chats
    ensures r.outbox == s.outbox + (if InActiveChat(s, u) && IsOpen(s.ready, Counterpart(s, u))
                                    then [Send(Counterpart(s, u), PartnerDisconnected)] else [])
    ensures !InActiveChat(s, u) ==> r.chatOf == s.chatOf
    ensures InActiveChat(s, u) ==>
              && s.chatOf[u] !in r.chats
              && Counterpart(s, u) !in r.chatOf
              && (s.chats[s.chatOf[u]].Has(u) ==> u !in r.chatOf)
    ensures InActiveChat(s, u) ==> forall x :: !s.chats[s.chatOf[u]].Has(x) ==>
              (x in r.chatOf <==> x in s.chatOf) && (x in r.chatOf ==> r.chatOf[x] == s.chatOf[x])
  {
    HandleEndChat(RemoveFromWaiting(s, u), u)
  }

  /** Ending a chat twice is ending it once: the second call finds no active
      chat and sends no second `partner_disconnected`. */
  lemma EndChatIdempotent(s: Server, u: ConnId)
    ensures HandleEndChat(HandleEndChat(s, u), u) == HandleEndChat(s, u)
  {
  }

  lemma CleanupIdempotent(s: Server, c: ChatId)
    ensures CleanupChat(CleanupChat(s, c), c) == CleanupChat(s, c)
  {
  }

  /** A second close of the same connection changes nothing and notifies nobody. */
  lemma DisconnectionIdempotent(s: Server, u: ConnId)
    ensures HandleDisconnection(HandleDisconnection(s, u), u) == HandleDisconnection(s, u)
  {
    var r := HandleDisconnection(s, u);
    assert RemoveFromWaiting(r, u) == r;
    EndChatIdempotent(RemoveFromWaiting(s, u), u);
  }
}
