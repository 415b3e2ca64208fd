# HearMe matchmaking and session relay, modelled in Dafny

HearMe pairs anonymous users for one-on-one voice or text chats over
websockets. Its server (`index.js`) keeps two waiting queues (`voice`, `text`),
a registry of active chats keyed by a uuid, and on every connection a
`chatId` stamp. A `start_search` pairs the requester with the first open
connection in the mode's queue, skipping and dropping "ghosts" (queued
connections whose transport is no longer open), or queues the requester when
nobody open is there. Text messages are relayed to the other participant of the
sender's chat; `end_chat` notifies the partner and tears the chat down; a
closed connection leaves every queue and ends its chat.

The model is functional. The whole server state is one immutable value:

- `Types.Server` holds the transport state of every accepted connection
  (`ready`: open or not), the `chatId` stamps (`chatOf`, a missing key being
  `null`), the two queues (`Types.Queues`), the chat registry (`chats`) and
  every frame the server has sent so far (`outbox`, a sequence of
  `Types.Send`).
- Connection ids and chat ids are numbers; the uuid a handler would draw is a
  parameter of the handler (`id`, `newChat`), and the freshness `uuidv4`
  guarantees is a precondition only where an invariant depends on it
  (`Dispatch.Admissible`).
- Each handler is a pure function from state to state (`Matchmaking`,
  `Sessions`); `Dispatch.Step` is one turn of the event loop: a connection, a
  decoded message, a transport leaving the OPEN state (`Drop`), or a `close`
  event.
- The ghost retry of `handleStartSearch` is modelled as the same recursion
  (`Matchmaking.Search`, rerunning the removal each time) and proved equal to
  a closed form (`Matchmaking.Settle`: the partner is the first open entry of
  the queue, every ghost in front of it is dropped).

`Invariants` proves that every reachable state keeps five properties: queued
ids are known connections, each connection is queued at most once across both
queues, chats join two distinct known connections, no `chatId` stamp
dangles, and each queue holds at most one connection. The last one follows
from the pairing rule: the only enqueue appends the searcher to a queue the
search has just found empty or emptied of ghosts, so the server never builds
a queue of two. The search is nevertheless modelled, and its first-open-entry
and order-keeping properties proved (`Matchmaking.StartSearchPairs`,
`Matchmaking.OldestFirst`), over queues of any length; ordering among several
waiters is a property of that transition, not of states the server reaches.

The message switch (`Dispatch.HandleMessage`, and through it
`Dispatch.Step`) uses the corrected mode check described under "## Findings".
The search as written keeps the invariants as well
(`Invariants.AsWrittenPreservesValid`).

`Coherence` treats two properties a matchmaking server is expected to keep:
a connection is never both queued and in a chat, and every chat is named by
the stamps of both its participants. The code does not keep them on its own. `handleStartSearch`
neither checks nor clears the requester's current chat, so a search from
inside a chat leaves the old chat registered with a participant that has
moved on. The model proves that both properties survive every step as long
as searches come from connections without a chat
(`Coherence.StepPreservesCoherent`), and exhibits the state in which they
break (`Coherence.SearchFromChatLeavesStaleChat`).

## Model

| member | source | states |
|---|---|---|
| Queue.Without | index.js:157-168 | filtering a queue by id keeps every other entry with its multiplicity and leaves no entry with the id; a queue without the id is returned unchanged |
| Queue.WithoutAppend | index.js:161 | filtering by id distributes over concatenation of queues |
| Matchmaking.RemoveFromWaiting | index.js:157-168 | after the removal the user waits in neither queue, each queue is the old one minus the user's entries, nothing else changes, and a user who was not queued leaves the state unchanged |
| Matchmaking.RemovalCounts | index.js:157-168 | the removal takes away every copy of the user and no copy of any other connection |
| Matchmaking.ClosedPrefix | index.js:79-91 | the partner index: every entry before it is a ghost and the entry at it, if any, is open |
| Matchmaking.Search | index.js:75-116 | a search for a recognised mode leaves transport states alone, clears the user from the other queue, leaves the user alone in the mode's queue exactly when nothing is sent, and otherwise sends exactly two frames |
| Matchmaking.HandleStartSearch | index.js:69-117 | a closed requester or an unrecognised mode changes nothing; otherwise the requester ends up in at most one queue, at most once, and only as the sole entry of the mode's queue |
| Matchmaking.SearchClosedForm | index.js:79-91 | the ghost-retry recursion equals pairing with the first open entry after dropping the ghosts in front of it, or queuing alone when every entry is a ghost |
| Matchmaking.StartSearchPairs | index.js:79-109 | when an open entry exists, the partner is the first open entry other than the requester, the ghosts before it are dropped and the rest of the queue keeps its order, both sides are stamped with the new chat id, the chat is registered, and both receive `partner_found`, requester first |
| Matchmaking.StartSearchWaits | index.js:79-116 | when the queue holds only ghosts, they are all dropped, the requester waits alone, and no chat, stamp or frame is produced |
| Matchmaking.OldestFirst | index.js:79-81 | with an open head the oldest waiting connection is the partner and every later entry keeps its place |
| Sessions.HandleTextMessage | index.js:119-131 | only the outbox changes; exactly one `text_message` frame carrying the content is sent, to the sender's counterpart, if and only if the sender's chat is registered and the counterpart is open |
| Sessions.CleanupChat | index.js:133-141 | the chat is removed, both participants lose their stamps, every other chat and stamp is untouched, and an unknown chat id changes nothing |
| Sessions.HandleEndChat | index.js:143-155 | without an active chat nothing changes; otherwise the chat is gone, the counterpart gets `partner_disconnected` if and only if it is open, neither side keeps an active chat, and every other connection's stamp and every other chat is unchanged |
| Sessions.HandleDisconnection | index.js:170-173 | the closed user leaves both queues and has no active chat afterwards; its chat is deleted, its counterpart loses its stamp, and the user loses its own stamp when the chat names it; the counterpart gets exactly one `partner_disconnected` if the user was in an active chat and the counterpart is open, and nothing is sent otherwise; every chat other than its own and every stamp outside that chat is kept as it was |
| Sessions.EndChatIdempotent | index.js:143-155 | ending a chat twice equals ending it once, so the partner is notified once |
| Sessions.CleanupIdempotent | index.js:133-141 | cleaning a chat up twice equals cleaning it up once |
| Sessions.DisconnectionIdempotent | index.js:170-173 | handling a disconnection twice equals handling it once |
| Dispatch.OnConnect | index.js:28-37 | a new connection is open, its `welcome_message` is the one frame sent, and no other connection, queue or chat changes |
| Dispatch.HandleMessage | index.js:44-57 | each handled message type runs its handler (a search with the corrected mode check), every other type leaves the state unchanged, and no message changes a transport state |
| Dispatch.Lose | index.js:84 | a dropped transport is no longer open and nothing else changes |
| Dispatch.CloseTwice | index.js:63-66 | a second `close` for the same connection changes nothing and sends nothing |
| Dispatch.Step | index.js:28-66 | a connection event opens and registers the new id and touches no queue, chat or stamp; a message never changes a transport state and an unhandled type changes nothing; a dropped transport is the only change of a drop; after a `close` the connection is closed, waits nowhere and has no active chat |
| Invariants.InitialValid | index.js:13-20 | the empty initial state satisfies the invariants |
| Invariants.SearchPreservesValid | index.js:69-117 | a search keeps queued ids known and unique, chats well formed, stamps resolvable, and at most one connection per queue |
| Invariants.AsWrittenPreservesValid | index.js:69-117 | the search as written, inherited mode names included, keeps the same invariants |
| Invariants.EndChatPreservesValid | index.js:143-155 | ending a chat keeps the invariants |
| Invariants.StepPreservesValid | index.js:28-173 | every turn of the event loop with fresh uuids keeps the invariants |
| Invariants.RelayToPartnerOnly | index.js:119-131 | in a reachable state a relayed message goes to the other participant of the sender's chat, never back to the sender |
| Invariants.EndChatClearsBoth | index.js:143-155 | in a reachable state ending a chat clears the stamps of both participants and removes the chat |
| Invariants.DisconnectClears | index.js:170-173 | in a reachable state a closed user waits nowhere, keeps no stamp, its chat is gone and every other chat is untouched |
| Coherence.StepPreservesCoherent | index.js:28-173 | if searches come only from connections without a chat, no step lets a connection be both queued and in a chat, and every chat stays named by both participants' stamps |
| Coherence.AsWrittenPreservesCoherent | index.js:69-117 | the search as written, from a connection without a chat, keeps the connection-not-both-queued-and-chatting and both-stamps properties |
| Coherence.SearchFromChatLeavesStaleChat | index.js:93-98 | a search from inside chat 10 pairs user 1 into chat 11 while chat 10 stays registered: the state is still valid but no longer coherent, user 2's messages still reach user 1, and user 2 ending chat 10 clears user 1's stamp although chat 11 is still registered |
| Coherence.StaleChatEffects | index.js:119-155 | for any chat shared by two distinct connections, where the sender is still stamped with it and the other side is open: the sender's text still reaches the other side, and ending that chat removes the other side's stamp while any other registered chat stays registered |
| ModeGuard.LookupWaiting | index.js:71 | the lookup finds a queue exactly for `voice` and `text`, an inherited value exactly for the object prototype's property names, and nothing otherwise |
| ModeGuard.HandleStartSearchAsWritten | index.js:69-117 | as written, an inherited mode name from an open requester removes only the requester's entries from both queues, every other waiter staying in order, and changes nothing else |
| ModeGuard.AsWrittenAgrees | index.js:71-72 | outside the inherited names the guard as written and the corrected guard behave identically |
| ModeGuard.InheritedKeyCancels | index.js:71-76 | on an inherited name the corrected search ignores the request while the search as written dequeues a waiting requester |
| ModeGuard.ToStringSearchDequeues | index.js:71-76 | a waiting user asking for a `toString` search is dropped from the voice queue as written and left queued by the corrected search |

## Left out

- Moderation (report counters, bans, `report_user` handling, `you_are_banned`): the server has no such code; the switch ignores `report_user`.
- `webrtc_signal` relay and the `role` field of `partner_found`: the server does not implement them; unknown message types fall through the switch.
- JSON decoding and malformed frames: a frame is modelled after decoding as `Dispatch.Envelope`; an unparseable frame is caught and ignored, which is the identity on the state. A `mode` that is not a string (a number, an array) is not modelled.
- Logging, the HTTP liveness route, server start-up and the port setting: no effect on the state.
- `main.js` (the client) is not part of this model.
- The randomness of `uuidv4`: ids are parameters, and their freshness is assumed only through `Dispatch.Admissible`.
- Concurrency and delivery: Node's event loop runs one handler at a time, which `Dispatch.Step` models; transport errors on `send` and delivery of the outbox are not modelled.
- Dispatch.HandleMessage: a `start_search` runs the corrected mode check, so on the twelve names inherited from the object prototype `Dispatch.Step` leaves the state unchanged where the server as written dequeues the requester; that behaviour is `ModeGuard.HandleStartSearchAsWritten`, and `Invariants.AsWrittenPreservesValid` and `Coherence.AsWrittenPreservesCoherent` show the invariants survive it.
- Dispatch.Envelope: `content` is a string; the server relays whatever JSON value (or `undefined`) the frame carries, which the model does not distinguish.
- Sessions.HandleDisconnection: the user's own stamp is promised gone in every state only when its chat names the user, and otherwise only in a reachable state (`Invariants.DisconnectClears`), because a stamp naming a chat that no longer exists, or a chat without the user, is cleared by nobody.
- Coherence.StepPreservesCoherent: that a connection is never queued while in a chat, and that every chat resolves from both sides, is proved only under `Coherence.SearchesWhenIdle`, since the server does not end the current chat on a new search.

## Findings

| source | as written | input that shows it | evidently intended | confidence | as-written member | corrected member |
|---|---|---|---|---|---|---|
| index.js:71-72 | the mode guard rejects a mode only when `waitingUsers[mode]` is falsy, so names inherited from the object prototype pass it; the search then removes the user from the queues and throws on the inherited value, and the throw is swallowed | user 1 waits in the voice queue and sends `start_search` with mode `toString`: user 1 leaves the voice queue | an unrecognised mode is logged and ignored without changing any state | medium, not executed | ModeGuard.ToStringSearchDequeues | Matchmaking.HandleStartSearch |
