/** The mode check at the top of a search, as the server writes it. The server
    looks the requested mode up as a property of its queue table and rejects
    the search only when that lookup is falsy. Property names the table
    inherits from the JavaScript object prototype pass the check: the search
    then drops the user from both queues and fails with a type error when it
    treats the inherited value as an array, which the message handler swallows.
    A search for "toString" therefore behaves like a cancel, although the
    intended behaviour is to ignore an unknown mode, which is what
    Matchmaking.HandleStartSearch does. */
module ModeGuard {
  import opened Types
  import opened Queue
  import opened Matchmaking

  /** Property names every plain object inherits from the object prototype.
      Each of them reads as a truthy value that is not an array. */
  const InheritedKeys: set<string> := {
    "constructor", "__proto__", "toString", "toLocaleString", "valueOf",
    "hasOwnProperty", "isPrototypeOf", "propertyIsEnumerable",
    "__defineGetter__", "__defineSetter__", "__lookupGetter__", "__lookupSetter__"
  }

  /** What the property lookup of a mode on the queue table finds. */
  datatype Lookup = OwnQueue(m: Mode) | Inherited | Missing

  function LookupWaiting(mode: string): (r: Lookup)
    ensures r.OwnQueue? <==> ParseMode(mode).Some?
    ensures r.OwnQueue? ==> ParseMode(mode) == Some(r.m)
    ensures r.Inherited? <==> mode in InheritedKeys
  {
    match ParseMode(mode)
    case Some(m) => OwnQueue(m)
    case None => if mode in InheritedKeys then Inherited else Missing
  }

  /** The search as written: an inherited key gets past the guard, the removal
      from the queues happens, and the type error that follows ends the
      handler without any further change. */
  function HandleStartSearchAsWritten(s: Server, u: ConnId, mode: string, id: ChatId): (r: Server)
    ensures !IsOpen(s.ready, u) || LookupWaiting(mode).Missing? ==> r == s
    ensures IsOpen(s.ready, u) && LookupWaiting(mode).Inherited? ==>
              && !r.waiting.Holds(u)
              && (forall m :: r.waiting.Get(m) == Without(s.waiting.Get(m), u))
              && r.ready == s.ready && r.chatOf == s.chatOf
              && r.chats == s.chats && r.outbox == s.outbox
  {
    if !IsOpen(s.ready, u) then s
    else
      match LookupWaiting(mode)
      case Missing => s
      case Inherited => RemoveFromWaiting(s, u)
      case OwnQueue(m) => Search(s, u, m, id)
  }

  /** Outside the inherited names the guard as written and the intended one
      agree on every state. */
  lemma AsWrittenAgrees(s: Server, u: ConnId, mode: string, id: ChatId)
    requires mode !in InheritedKeys
    ensures HandleStartSearchAsWritten(s, u, mode, id) == HandleStartSearch(s, u, mode, id)
  {
  }

  /** On an inherited name the intended search ignores the request, while the
      search as written removes a queued user from its queue. */
  lemma InheritedKeyCancels(s: Server, u: ConnId, mode: string, id: ChatId)
    requires IsOpen(s.ready, u) && mode in InheritedKeys && s.waiting.Holds(u)
    ensures HandleStartSearch(s, u, mode, id) == s
    ensures HandleStartSearchAsWritten(s, u, mode, id) != s
  {
    var r := HandleStartSearchAsWritten(s, u, mode, id);
    assert !r.waiting.Holds(u);
  }

  /** User 1 waits for a voice partner and then asks for a "toString" search. */
  lemma ToStringSearchDequeues()
    ensures var s := Server(map[1 := true], map[], Queues([1], []), map[], []);
            && HandleStartSearch(s, 1, "toString", 5) == s
            && HandleStartSearchAsWritten(s, 1, "toString", 5).waiting == Queues([], [])
  {
    var s := Server(map[1 := true], map[], Queues([1], []), map[], []);
    assert Without([1], 1) == [];
    assert s.waiting.Get(Voice) == [1];
  }
}
