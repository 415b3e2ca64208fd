/** The abstract server state of the HearMe matchmaking server: the live
    connections, one waiting queue per conversation mode, the registry of
    active chats, and the log of events sent to clients. */
module Types {

  datatype Option<+T> = None | Some(value: T)

  /** The server names connections and chats with uuid strings; only their
      identity matters here, so they are modelled as numbers. */
  type ConnId = nat
  type ChatId = nat

  /** The two conversation modes, each with its own waiting queue. */
  datatype Mode = Voice | Text

  function Other(m: Mode): Mode
  {
    match m
    case Voice => Text
    case Text => Voice
  }

  /** An active chat record: `user1` is the requester, `user2` the partner taken from the queue. */
  datatype Chat = Chat(user1: ConnId, user2: ConnId)
  {
    predicate Has(x: ConnId)
    {
      x == user1 || x == user2
    }

    /** The side the server treats as the other participant of `x`:
        `user2` when `x` is `user1`, and `user1` in every other case. */
    function PartnerOf(x: ConnId): ConnId
    {
      if user1 == x then user2 else user1
    }
  }

  /** The waiting rooms, one FIFO queue per mode (oldest entry first). */
  datatype Queues = Queues(voice: seq<ConnId>, text: seq<ConnId>)
  {
    function Get(m: Mode): seq<ConnId>
    {
      match m
      case Voice => voice
      case Text => text
    }

    function Set(m: Mode, q: seq<ConnId>): (r: Queues)
      ensures r.Get(m) == q
      ensures r.Get(Other(m)) == Get(Other(m))
    {
      match m
      case Voice => this.(voice := q)
      case Text => this.(text := q)
    }

    lemma SetTwice(m: Mode, a: seq<ConnId>, b: seq<ConnId>)
      ensures Set(m, a).Set(m, b) == Set(m, b)
    {
    }

    /** Whether `x` waits in some queue. */
    predicate Holds(x: ConnId)
    {
      x in voice || x in text
    }

    /** How many times `x` is queued, over both modes. */
    function Count(x: ConnId): nat
    {
      multiset(voice)[x] + multiset(text)[x]
    }

    lemma CountSplit(m: Mode, x: ConnId)
      ensures Count(x) == multiset(Get(m))[x] + multiset(Get(Other(m)))[x]
      ensures Holds(x) <==> x in Get(m) || x in Get(Other(m))
    {
    }
  }

  /** The events the server sends to a client. */
  datatype Event =
    | WelcomeMessage(content: string)
    | PartnerFound
    | TextMessage(content: string)
    | PartnerDisconnected

  datatype Send = Send(to: ConnId, event: Event)

  /** The server state. A connection's record is split over two maps:
      `ready` holds, for every connection the server has accepted, whether its
      transport is OPEN; `chatOf` holds its `chatId` field, a missing key
      standing for `null`. */
  datatype Server = Server(
    ready: map<ConnId, bool>,
    chatOf: map<ConnId, ChatId>,
    waiting: Queues,
    chats: map<ChatId, Chat>,
    outbox: seq<Send>)

  /** `readyState === OPEN`; an unknown identity counts as not open. */
  predicate IsOpen(ready: map<ConnId, bool>, x: ConnId)
  {
    x in ready && ready[x]
  }

  /** The server state before any client has connected. */
  const Initial := Server(map[], map[], Queues([], []), map[], [])
}
