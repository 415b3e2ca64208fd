/** `handleStartSearch` and `removeFromWaiting` (index.js:69-117, 157-168):
    FIFO pairing against the head of a mode's queue, skipping "ghosts"
    whose transport is no longer open. */
module Matchmaking {
  import opened Types
  import opened Queue

  /** The recognised modes are exactly the two own keys of `waitingUsers`. */
  function ParseMode(mode: string): Option<Mode>
  {
    if mode == "voice" then Some(Voice)
    else if mode == "text" then Some(Text)
    else None
  }

  /** `removeFromWaiting(user)`: drop every entry with the user's id from every queue. */
  function RemoveFromWaiting(s: Server, u: ConnId): (r: Server)
    ensures forall m :: r.waiting.Get(m) == Without(s.waiting.Get(m), u)
    ensures !r.waiting.Holds(u)
    ensures r.ready == s.ready && r.chatOf == s.chatOf && r.chats == s.chats && r.outbox == s.outbox
    ensures !s.waiting.Holds(u) ==> r == s
  {
    s.(waiting := Queues(Without(s.waiting.voice, u), Without(s.waiting.text, u)))
  }

  /** Removal takes away every copy of the user and no copy of anyone else. */
  lemma RemovalCounts(s: Server, u: ConnId)
    ensures var r := RemoveFromWaiting(s, u);
            && r.waiting.Count(u) == 0
            && forall x :: x != u ==> r.waiting.Count(x) == s.waiting.Count(x)
  {
    var r := RemoveFromWaiting(s, u);
    assert r.waiting.voice == r.waiting.Get(Voice);
    assert r.waiting.text == r.waiting.Get(Text);
  }

  /** The number of ghosts at the head of `q`: the index of its first open entry,
      or `|q|` when every entry is closed. */
  function ClosedPrefix(ready: map<ConnId, bool>, q: seq<ConnId>): (k: nat)
    ensures k <= |q|
    ensures forall j :: 0 <= j < k ==> !IsOpen(ready, q[j])
    ensures k < |q| ==> IsOpen(ready, q[k])
  {
    if |q| == 0 || IsOpen(ready, q[0]) then 0
    else 1 + ClosedPrefix(ready, q[1..])
  }

  /** Lines 96-109: stamp both sides with the new chat id, record the chat,
      and send `partner_found` to the user and then to the partner. */
  function Pair(s: Server, u: ConnId, p: ConnId, id: ChatId): Server
  {
    s.(chatOf := s.chatOf[u := id][p := id],
       chats := s.chats[id := Chat(u, p)],
       outbox := s.outbox + [Send(u, PartnerFound), Send(p, PartnerFound)])
  }

  /** Lines 75-116 for a recognised mode, the ghost retry of line 89 included.
      Every retry runs `removeFromWaiting` again and shifts one more entry off
      the queue, so the queue length bounds the recursion. */
  function Search(s: Server, u: ConnId, m: Mode, id: ChatId): (r: Server)
    ensures r.ready == s.ready
    ensures r.waiting.Get(Other(m)) == Without(s.waiting.Get(Other(m)), u)
    ensures u in r.waiting.Get(m) ==> r.waiting.Get(m) == [u]
    ensures r.waiting.Get(m) == [u] <==> r.outbox == s.outbox
    ensures r.waiting.Get(m) != [u] ==> |r.outbox| == |s.outbox| + 2
    decreases |s.waiting.Get(m)|
  {
    var s1 := RemoveFromWaiting(s, u);
    var q := s1.waiting.Get(m);
    if |q| > 0 then
      var p := q[0];
      var s2 := s1.(waiting := s1.waiting.Set(m, q[1..]));
      if !IsOpen(s2.ready, p) then Search(s2, u, m, id)
      else
        assert u !in q[1..];
        Pair(s2, u, p, id)
    else
      s1.(waiting := s1.waiting.Set(m, q + [u]))
  }

  /** `handleStartSearch(user, mode)`, with the mode given as the raw string
      of the request. */
  function HandleStartSearch(s: Server, u: ConnId, mode: string, id: ChatId): (r: Server)
    ensures !IsOpen(s.ready, u) || ParseMode(mode).None? ==> r == s
    ensures IsOpen(s.ready, u) && ParseMode(mode).Some? ==>
              var m := ParseMode(mode).value;
              && u !in r.waiting.Get(Other(m))
              && (u in r.waiting.Get(m) <==> r.waiting.Get(m) == [u])
              && r.waiting.Count(u) <= 1
  {
    if !IsOpen(s.ready, u) then s
    else
      match ParseMode(mode)
      case None => s
      case Some(m) => Search(s, u, m, id)
  }

  /** The outcome of a search written without recursion, once the user's own
      entries are gone: the partner is the first open entry of the mode's queue,
      every ghost in front of it is dropped, and the rest of the queue stays in
      order behind. With no open entry the ghosts are all dropped and the user
      waits alone. */
  function Settle(s: Server, u: ConnId, m: Mode, id: ChatId): Server
  {
    var q := s.waiting.Get(m);
    var k := ClosedPrefix(s.ready, q);
    if k < |q| then Pair(s.(waiting := s.waiting.Set(m, q[k + 1..])), u, q[k], id)
    else s.(waiting := s.waiting.Set(m, [u]))
  }

  /** The ghost-retry recursion computes the closed form. */
  lemma {:induction false} SearchClosedForm(s: Server, u: ConnId, m: Mode, id: ChatId)
    ensures Search(s, u, m, id) == Settle(RemoveFromWaiting(s, u), u, m, id)
    decreases |s.waiting.Get(m)|
  {
    var s1 := RemoveFromWaiting(s, u);
    var q := s1.waiting.Get(m);
    if |q| == 0 {
      EmptyQueueEnqueues(s, u, m, id);
    } else if IsOpen(s.ready, q[0]) {
      OpenHeadPairs(s, u, m, id);
    } else {
      var s2 := s1.(waiting := s1.waiting.Set(m, q[1..]));
      assert Search(s, u, m, id) == Search(s2, u, m, id);
      SearchClosedForm(s2, u, m, id);
      assert RemoveFromWaiting(s2, u) == s2 by {
        assert u !in q[1..];
        assert u !in s2.waiting.Get(Other(m));
        match m
        case Voice =>
        case Text =>
      }
      SettleSkipsGhost(s1, u, m, id);
    }
  }

  lemma EmptyQueueEnqueues(s: Server, u: ConnId, m: Mode, id: ChatId)
    requires |RemoveFromWaiting(s, u).waiting.Get(m)| == 0
    ensures Search(s, u, m, id) == Settle(RemoveFromWaiting(s, u), u, m, id)
  {
    var q := RemoveFromWaiting(s, u).waiting.Get(m);
    assert q + [u] == [u];
  }

  lemma OpenHeadPairs(s: Server, u: ConnId, m: Mode, id: ChatId)
    requires var q := RemoveFromWaiting(s, u).waiting.Get(m);
             |q| > 0 && IsOpen(s.ready, q[0])
    ensures Search(s, u, m, id) == Settle(RemoveFromWaiting(s, u), u, m, id)
  {
    var q := RemoveFromWaiting(s, u).waiting.Get(m);
    assert ClosedPrefix(s.ready, q) == 0;
  }

  /** One retry step: shifting a ghost off the head leaves the outcome unchanged. */
  lemma SettleSkipsGhost(s: Server, u: ConnId, m: Mode, id: ChatId)
    requires |s.waiting.Get(m)| > 0 && !IsOpen(s.ready, s.waiting.Get(m)[0])
    ensures Settle(s.(waiting := s.waiting.Set(m, s.waiting.Get(m)[1..])), u, m, id) == Settle(s, u, m, id)
  {
    var q := s.waiting.Get(m);
    var s2 := s.(waiting := s.waiting.Set(m, q[1..]));
    var k := ClosedPrefix(s.ready, q);
    assert ClosedPrefix(s2.ready, q[1..]) == k - 1;
    if k < |q| {
      var rest := q[k + 1..];
      assert q[1..][k - 1 + 1..] == rest;
      assert q[1..][k - 1] == q[k];
      s.waiting.SetTwice(m, q[1..], rest);
    } else {
      s.waiting.SetTwice(m, q[1..], [u]);
    }
  }

  /** A search that pairs: the partner is the first open connection of the
      mode's queue (the user's own entries removed first, so it is someone
      else), the closed entries ahead of it are dropped without being paired,
      the rest of the queue keeps its order, both sides carry the new chat id,
      the chat is registered as (user, partner) and each side gets one
      `partner_found`. */
  lemma StartSearchPairs(s: Server, u: ConnId, mode: string, m: Mode, id: ChatId)
    requires IsOpen(s.ready, u) && ParseMode(mode) == Some(m)
    requires var q := Without(s.waiting.Get(m), u); ClosedPrefix(s.ready, q) < |q|
    ensures var q := Without(s.waiting.Get(m), u);
            var k := ClosedPrefix(s.ready, q);
            var p := q[k];
            var r := HandleStartSearch(s, u, mode, id);
            && p != u
            && IsOpen(s.ready, p)
            && (forall j :: 0 <= j < k ==> !IsOpen(s.ready, q[j]))
            && r.waiting.Get(m) == q[k + 1..]
            && r.waiting.Get(Other(m)) == Without(s.waiting.Get(Other(m)), u)
            && r.chatOf == s.chatOf[u := id][p := id]
            && r.chats == s.chats[id := Chat(u, p)]
            && r.outbox == s.outbox + [Send(u, PartnerFound), Send(p, PartnerFound)]
            && r.ready == s.ready
  {
    var s1 := RemoveFromWaiting(s, u);
    StartSearchSettles(s, u, mode, m, id);
    SettlePairs(s1, u, m, id);
    assert s1.waiting.Get(Other(m)) == Without(s.waiting.Get(Other(m)), u);
  }

  lemma StartSearchSettles(s: Server, u: ConnId, mode: string, m: Mode, id: ChatId)
    requires IsOpen(s.ready, u) && ParseMode(mode) == Some(m)
    ensures HandleStartSearch(s, u, mode, id) == Settle(RemoveFromWaiting(s, u), u, m, id)
  {
    SearchClosedForm(s, u, m, id);
  }

  /** The closed form of a pairing, field by field. */
  lemma SettlePairs(s: Server, u: ConnId, m: Mode, id: ChatId)
    requires !s.waiting.Holds(u)
    requires ClosedPrefix(s.ready, s.waiting.Get(m)) < |s.waiting.Get(m)|
    ensures var q := s.waiting.Get(m);
            var k := ClosedPrefix(s.ready, q);
            var r := Settle(s, u, m, id);
            && q[k] != u
            && r.waiting == s.waiting.Set(m, q[k + 1..])
            && r.chatOf == s.chatOf[u := id][q[k] := id]
            && r.chats == s.chats[id := Chat(u, q[k])]
            && r.outbox == s.outbox + [Send(u, PartnerFound), Send(q[k], PartnerFound)]
            && r.ready == s.ready
  {
    s.waiting.CountSplit(m, u);
  }

  /** A search that finds no open connection in the queue: the ghosts are
      all dropped, the user becomes the only entry of the queue, and nothing
      else changes and nothing is sent. */
  lemma StartSearchWaits(s: Server, u: ConnId, mode: string, m: Mode, id: ChatId)
    requires IsOpen(s.ready, u) && ParseMode(mode) == Some(m)
    requires var q := Without(s.waiting.Get(m), u); ClosedPrefix(s.ready, q) == |q|
    ensures var q := Without(s.waiting.Get(m), u);
            var r := HandleStartSearch(s, u, mode, id);
            && (forall j :: 0 <= j < |q| ==> !IsOpen(s.ready, q[j]))
            && r.waiting.Get(m) == [u]
            && r.waiting.Get(Other(m)) == Without(s.waiting.Get(Other(m)), u)
            && r.chatOf == s.chatOf && r.chats == s.chats && r.outbox == s.outbox
            && r.ready == s.ready
  {
    var s1 := RemoveFromWaiting(s, u);
    StartSearchSettles(s, u, mode, m, id);
    assert Settle(s1, u, m, id) == s1.(waiting := s1.waiting.Set(m, [u]));
  }

  /** FIFO: with every queued connection open, the oldest is the partner and
      the others keep their places. */
  lemma OldestFirst(s: Server, u: ConnId, mode: string, m: Mode, id: ChatId)
    requires IsOpen(s.ready, u) && ParseMode(mode) == Some(m)
    requires var q := s.waiting.Get(m); |q| > 0 && u !in q && IsOpen(s.ready, q[0])
    ensures var q := s.waiting.Get(m);
            var r := HandleStartSearch(s, u, mode, id);
            && r.chats == s.chats[id := Chat(u, q[0])]
            && r.waiting.Get(m) == q[1..]
  {
    var q := s.waiting.Get(m);
    assert Without(q, u) == q;
    assert ClosedPrefix(s.ready, q) == 0;
    StartSearchPairs(s, u, mode, m, id);
  }
}
