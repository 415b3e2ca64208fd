/** The connection lifecycle and the message dispatch switch (index.js:28-67):
    every input the server reacts to, as one transition of the server state. */
module Dispatch {
  import opened Types
  import opened Matchmaking
  import opened Sessions

  /** The content of the `welcome_message` every new connection receives. */
  const WelcomeText := "Вітаємо у HearMe! Ви успішно підключились до сервера."

  /** An inbound frame after JSON decoding: its `type` and the fields the
      handlers read (`mode` for a search, `content` for a text message). */
  datatype Envelope = Envelope(kind: string, mode: string, content: string)

  /** The message types the switch reacts to. Every other type, `webrtc_signal`
      and `report_user` among them, falls through and changes nothing. */
  const Handled: set<string> := {"start_search", "cancel_search", "text_message", "end_chat"}

  /** A new websocket: it is OPEN, has no chat, and is greeted. */
  function OnConnect(s: Server, id: ConnId): (r: Server)
    ensures IsOpen(r.ready, id)
    ensures forall x :: x != id ==> IsOpen(r.ready, x) == IsOpen(s.ready, x)
    ensures r.ready.Keys == s.ready.Keys + {id}
    ensures r.outbox == s.outbox + [Send(id, WelcomeMessage(WelcomeText))]
    ensures r.chatOf == s.chatOf && r.waiting == s.waiting && r.chats == s.chats
  {
    s.(ready := s.ready[id := true],
       outbox := s.outbox + [Send(id, WelcomeMessage(WelcomeText))])
  }

  /** The `switch (data.type)` of the message handler. `id` is the uuid the
      server would draw if this message produces a new chat. A search goes
      through the corrected mode check of `Matchmaking.HandleStartSearch`; the
      check as written is `ModeGuard.HandleStartSearchAsWritten`. */
  function HandleMessage(s: Server, u: ConnId, e: Envelope, id: ChatId): (r: Server)
    ensures e.kind !in Handled ==> r == s
    ensures e.kind == "cancel_search" ==> r == RemoveFromWaiting(s, u)
    ensures e.kind == "text_message" ==> r == HandleTextMessage(s, u, e.content)
    ensures e.kind == "end_chat" ==> r == HandleEndChat(s, u)
    ensures e.kind == "start_search" ==> r == HandleStartSearch(s, u, e.mode, id)
    ensures r.ready == s.ready
  {
    match e.kind
    case "start_search" => HandleStartSearch(s, u, e.mode, id)
    case "cancel_search" => RemoveFromWaiting(s, u)
    case "text_message" => HandleTextMessage(s, u, e.content)
    case "end_chat" => HandleEndChat(s, u)
    case _ => s
  }

  /** The transport of `id` leaves the OPEN state (closing handshake, network
      loss) before its `close` event has been handled: it becomes a ghost. */
  function Lose(s: Server, id: ConnId): (r: Server)
    ensures !IsOpen(r.ready, id)
    ensures forall x :: x != id ==> IsOpen(r.ready, x) == IsOpen(s.ready, x)
    ensures r.ready.Keys == s.ready.Keys
    ensures r.(ready := s.ready) == s
  {
    if id in s.ready then s.(ready := s.ready[id := false]) else s
  }

  /** Everything the server reacts to. */
  datatype Input =
    | Connect(id: ConnId)
    | Message(from: ConnId, envelope: Envelope, newChat: ChatId)
    | Drop(id: ConnId)
    | Close(id: ConnId)

  /** One run-to-completion turn of the event loop. A `close` event arrives
      with the transport already CLOSED, and runs `handleDisconnection`. */
  function Step(s: Server, i: Input): (r: Server)
    ensures i.Connect? ==>
              && IsOpen(r.ready, i.id) && r.ready.Keys == s.ready.Keys + {i.id}
              && r.waiting == s.waiting && r.chats == s.chats && r.chatOf == s.chatOf
    ensures i.Message? ==> r.ready == s.ready
    ensures i.Message? && i.envelope.kind !in Handled ==> r == s
    ensures i.Drop? ==> !IsOpen(r.ready, i.id) && r.(ready := s.ready) == s
    ensures i.Close? ==>
              && !IsOpen(r.ready, i.id) && r.ready.Keys == s.ready.Keys
              && !r.waiting.Holds(i.id) && !InActiveChat(r, i.id)
  {
    match i
    case Connect(id) => OnConnect(s, id)
    case Message(u, e, newChat) => HandleMessage(s, u, e, newChat)
    case Drop(id) => Lose(s, id)
    case Close(id) => HandleDisconnection(Lose(s, id), id)
  }

  /** What the environment guarantees about an input: `uuidv4` never repeats,
      so a new connection's id is unused and a new chat id is not registered. */
  predicate Admissible(s: Server, i: Input)
  {
    match i
    case Connect(id) => id !in s.ready
    case Message(_, _, newChat) => newChat !in s.chats
    case Drop(_) => true
    case Close(_) => true
  }

  /** Closing a connection twice (two detection paths for one socket) runs the
      cleanup once: the second `close` changes nothing and notifies nobody. */
  lemma CloseTwice(s: Server, id: ConnId)
    ensures Step(Step(s, Close(id)), Close(id)) == Step(s, Close(id))
  {
    var s1 := Lose(s, id);
    var r := HandleDisconnection(s1, id);
    assert Step(s, Close(id)) == r;
    assert Lose(r, id) == r by {
      assert r.ready == s1.ready;
    }
    assert Step(r, Close(id)) == HandleDisconnection(r, id);
    DisconnectionIdempotent(s1, id);
  }
}
