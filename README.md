# sk-im-bot chat bridge, modelled in Dafny

sk-im-bot connects QQ (through a OneBot 11 websocket endpoint) and Discord to a
language model. Each adapter turns a platform message into a `MessageEvent`. The
`BotManager` queues these events and hands each one to three consumers:

- storage;
- the live web console, through a WebSocket hub;
- the reply pipeline, which asks the model for an answer and routes it back to
  the adapter of the platform the event came from.

The HTTP API that serves the console sits behind a Bearer-token check and a CORS
policy. The console keeps the newest messages in a small client-side store.

This project models that core:

| module | file | models |
|---|---|---|
| `Wrappers` | `wrappers.dfy` | `Option` |
| `Decimal` | `decimal.dfy` | Go's `fmt.Sprintf("%d", n)` and the reading that undoes it |
| `BotTypes` | `types.dfy` | the event model, the two media kinds, the send error, and the range of `RandomDelay` |
| `QQ` | `qq.dfy` | OneBot 11 event reading, the send-action envelope, CQ image codes, and the reconnecting supervisor with its `isConnected` flag (class `QQBot`) |
| `Discord` | `discord.dfy` | the `onMessage` filter and the channel sends (class `DiscordBot`) |
| `Manager` | `manager.dfy` | the dispatcher (class `BotManager`): the bounded queue, the save/broadcast/reply fan-out, reply routing, and storing the bot's own reply |
| `Hub` | `hub.dfy` | the WebSocket hub (classes `Hub` and `Client`): register, unregister, evicting broadcast, and the batching `writePump` |
| `Middleware` | `middleware.dfy` | the `Authorization` header check (Bearer scheme, section 2.1 of RFC 6750) and the CORS decision |
| `Store` | `store.dfy` | the console store (class `AppStore`) and its newest-first list of at most 100 messages |

Concurrency is taken one step at a time:

- A goroutine's work becomes one method call.
- A blocking channel send becomes a precondition that the channel has room.
- A mutex-guarded write becomes one append to a log.

Inputs stand in for whatever the world supplies:

- JSON decoding and serialization outcomes become `Option` values.
- The language model's answer, the clock, `rand.Intn` and the success of each
  socket or API call become parameters.
- The JWT parser is a function parameter.
- Storage, the QQ socket and the Discord channel are modelled as append-only logs.

`processLoop` itself is proved against a specification of one turn
(`NextState`) iterated over the queue (`RunStates`). Four lemmas then state
what any run does:

- events leave the queue from the head;
- they are broadcast in queue order;
- they are handed to the model in queue order;
- their effects on storage and on the adapters are those of the events taken
  one after another.

## Model

| member | source | states |
|---|---|---|
| Decimal.FormatInt | backend/internal/bot/qq.go:111-113 | `%d` rendering is never empty and starts with '-' exactly for negative numbers |
| Decimal.DigitsRoundTrip | backend/internal/bot/qq.go:111 | reading back the digits of any natural number gives that number |
| Decimal.FormatIntRoundTrip | backend/internal/bot/qq.go:111-113 | reading back the `%d` rendering of any integer gives that integer |
| Decimal.FormatIntInjective | backend/internal/bot/qq.go:111-120 | distinct OneBot IDs render as distinct string IDs |
| BotTypes.ParseMsgType | backend/internal/bot/types.go:9-14 | a name is a media kind iff it is "text" or "image", and it reads back as the kind of that name |
| BotTypes.MsgTypeNamesRoundTrip | backend/internal/bot/types.go:11-14 | the two kinds have distinct names and each name reads back as its kind |
| BotTypes.RandomDelay | backend/internal/bot/types.go:38-45 | no pause iff `minMs >= maxMs`; otherwise the pause is in `[minMs, maxMs)` |
| BotTypes.RandomDelayCoversRange | backend/internal/bot/types.go:43 | every delay in `[minMs, maxMs)` comes from some draw `rand.Intn` may return |
| QQ.ParseMessage | backend/internal/bot/qq.go:101-127 | a handler call happens iff the frame decodes and `post_type` is "message"; the event is a QQ text event; `isGroup` iff `message_type` is "group"; the target reads back as `group_id` for groups and `user_id` otherwise; the user ID reads back as `user_id`; nickname and raw text pass through |
| QQ.GroupAndPrivateTargets | backend/internal/bot/qq.go:109-125 | concrete group and private reports map to the expected events, with targets "123" and "456" |
| QQ.Envelope | backend/internal/bot/qq.go:142-161 | the envelope addresses exactly `(targetId, isGroup)`: `send_group_msg` with `group_id` or `send_private_msg` with `user_id`; its parameters are that key and `message`, and `message` is the content |
| QQ.CQImage | backend/internal/bot/qq.go:172 | the CQ code reads back as an image code whose file is exactly the URL |
| QQ.SendOutcome | backend/internal/bot/qq.go:137-166 | a send succeeds iff the bot is connected, the socket is open and the write goes through; offline it is the not-connected error |
| QQ.RetryUntilConnected | backend/internal/bot/qq.go:39-45 | any number of failed dials followed by a successful one leaves the supervisor reading with an open socket and the flag set |
| QQ.RunAppend | backend/internal/bot/qq.go:39-58 | running two traces in turn is running their concatenation, and the concatenation is possible iff both parts are |
| QQ.ReadErrorDisconnects | backend/internal/bot/qq.go:49-54 | after a read error the flag is cleared and the supervisor is back at connecting, whatever came before |
| QQ.FlagTracksReadLoop | backend/internal/bot/qq.go:39-58 | the flag is set exactly while the supervisor is in the read loop |
| QQ.HandledAreQQText | backend/internal/bot/qq.go:56 | every event the supervisor hands on is a QQ text event |
| QQ.QQBot.constructor | backend/internal/bot/qq.go:27-32 | a new adapter has no socket, is offline and has written nothing |
| QQ.QQBot.Connect | backend/internal/bot/qq.go:62-78 | a successful dial installs an open socket and sets the flag; a failed one changes nothing |
| QQ.QQBot.ReadFailed | backend/internal/bot/qq.go:50-53 | a read error clears the flag and leaves the socket as it is |
| QQ.QQBot.Stop | backend/internal/bot/qq.go:81-85 | the socket, if any, is closed; the flag and the write log are untouched |
| QQ.QQBot.SendMessage | backend/internal/bot/qq.go:137-167 | the result is `SendOutcome`; exactly one envelope for the target is logged on success, and nothing otherwise |
| QQ.QQBot.SendImage | backend/internal/bot/qq.go:170-174 | the text path with the CQ code as content: the same outcome and at most the one envelope carrying the code |
| QQ.QQBot.Meet | backend/internal/bot/qq.go:39-57 | one pass of the supervisor's loops moves the adapter exactly as `Step` says and reports the event the frame caused |
| QQ.QQBot.Start | backend/internal/bot/qq.go:35-59 | over a trace of I/O outcomes, the socket and flag end where `Run` says, nothing is written, and the handler calls are `Handled(trace)` in read order |
| Discord.OnMessage | backend/internal/bot/discord.go:60-84 | a message is accepted iff it is not the bot's own and passes the guild restriction; the event is a Discord text event on the channel with the author's ID, name and the content; `isGroup` iff the guild is non-empty |
| Discord.OwnMessagesDropped | backend/internal/bot/discord.go:62-64 | the bot's own messages are always dropped |
| Discord.RestrictionAdmitsOnlyThatGuild | backend/internal/bot/discord.go:67-72 | under a restriction, every accepted message is from that guild and is a group message; direct messages are dropped |
| Discord.NoRestrictionOnlySelfFilter | backend/internal/bot/discord.go:67 | without a restriction, a message is accepted iff it is not the bot's own |
| Discord.ApiOutcome | backend/internal/bot/discord.go:88-89 | a send succeeds iff the API call does; otherwise it fails with the API error |
| Discord.DiscordBot.constructor | backend/internal/bot/discord.go:19-24 | a new adapter keeps its token and guild, with no session and nothing sent |
| Discord.DiscordBot.Start | backend/internal/bot/discord.go:27-50 | the session is authorized as "Bot " + token and stays set; the result is whether `Open` succeeded |
| Discord.DiscordBot.Stop | backend/internal/bot/discord.go:53-57 | an existing session is closed; without one nothing happens |
| Discord.DiscordBot.SendMessage | backend/internal/bot/discord.go:87-90 | exactly one channel send of the content to the target; `isGroup` plays no part |
| Discord.DiscordBot.SendImage | backend/internal/bot/discord.go:93-96 | exactly one channel send of the bare URL to the target |
| Manager.ReplyDelayBounds | backend/internal/bot/manager.go:99 | the reply pipeline always pauses, for at least 500 and less than 3000 ms |
| Manager.StoredRecord | backend/internal/bot/manager.go:84-90 | the row has the event's username as sender, its content, the time the clock gives `saveMessage`, and a media-kind name that reads back as the event's kind |
| Manager.Prompt | backend/internal/bot/manager.go:102-104 | the model gets a single user turn holding the event's content |
| Manager.RouteOf | backend/internal/bot/manager.go:119-128 | the QQ adapter is chosen iff the platform is "qq" and QQ is enabled; Discord iff "discord" and Discord is enabled; otherwise none |
| Manager.RoutingIsExclusive | backend/internal/bot/manager.go:119-128 | a reply reaches at most one adapter, and only the one of its platform |
| Manager.UnroutableReplyIsStillStored | backend/internal/bot/manager.go:118-140 | with no adapter chosen, nothing is sent, yet the bot's reply is stored because the error stays nil |
| Manager.FailedSendStoresNothing | backend/internal/bot/manager.go:130-131 | when the send fails, no bot row is stored and nothing is written to the QQ socket |
| Manager.ReplyGoesBackWhereEventCameFrom | backend/internal/bot/manager.go:113 | a reply that reaches an adapter is addressed to the event's own target and kind, and carries the model's text |
| Manager.StoredRowsPerEvent | backend/internal/bot/manager.go:69-79 | a run of events stores between one and two rows per event |
| Manager.EachEventStoredOnce | backend/internal/bot/manager.go:69-79 | processing the k-th event appends exactly that event's row, timed when it is saved, then nothing when the model fails, and otherwise exactly one bot row, timed when the reply is sent, iff the send reports no error |
| Manager.StoredRows | backend/internal/bot/manager.go:84-90 | the rows for a run are one per event, the i-th being the i-th event's row |
| Manager.ModelFailureStoresOnlyTheEvent | backend/internal/bot/manager.go:106-110 | when the model fails, an event's only effect is its own row |
| Manager.ModelFailureSendsNothing | backend/internal/bot/manager.go:106-110 | when the model fails on every event, nothing is sent and the stored rows are exactly the events' own, in queue order |
| Manager.RunStates | backend/internal/bot/manager.go:65-81 | each turn of the dispatch loop consumes one queued event |
| Manager.RunDrainsQueueFromHead | backend/internal/bot/manager.go:60-66 | the loop takes events from the head of the queue and leaves the adapter state unchanged |
| Manager.RunBroadcastsInQueueOrder | backend/internal/bot/manager.go:73-75 | with a callback set, each event is broadcast once, in queue order; without one, nothing is |
| Manager.RunPromptsInQueueOrder | backend/internal/bot/manager.go:79-104 | each event is handed to the model once, in queue order |
| Manager.RunEffectsInQueueOrder | backend/internal/bot/manager.go:65-81 | the effects of a run are those of its events processed one after another, in queue order |
| Manager.BotManager.constructor | backend/internal/bot/manager.go:30-44 | an adapter exists iff its platform is enabled, configured as given; the queue and logs start empty |
| Manager.BotManager.Start | backend/internal/bot/manager.go:47-57 | the Discord adapter, if enabled, opens its session and sends nothing |
| Manager.BotManager.HandleEvent | backend/internal/bot/manager.go:60-62 | the event joins the tail of the queue, which stays within 100 |
| Manager.BotManager.RunQQ | backend/internal/bot/manager.go:39 | every event the QQ supervisor hands on is queued in read order, and the adapter ends where `Run` says |
| Manager.BotManager.OnDiscordMessage | backend/internal/bot/manager.go:42 | an accepted Discord message is queued, and a dropped one is not; only an accepted one needs room in the queue |
| Manager.BotManager.SaveMessage | backend/internal/bot/manager.go:84-94 | exactly the event's row is appended to storage |
| Manager.BotManager.SendReply | backend/internal/bot/manager.go:117-141 | the error is that of the adapter the platform selects (nil if none), and the storage and adapter logs grow by exactly `ReplyEffects` |
| Manager.BotManager.HandleLLMReply | backend/internal/bot/manager.go:97-114 | the model gets the event's prompt; on a model error nothing is sent or stored, otherwise the reply goes to the event's platform, target and kind |
| Manager.BotManager.ProcessNext | backend/internal/bot/manager.go:66-80 | one turn takes the head of the queue and moves the state exactly as `NextState` says: saved, broadcast if a callback is set, prompted and answered |
| Manager.BotManager.ProcessLoop | backend/internal/bot/manager.go:65-81 | the loop moves the state exactly as `RunStates` says, over as many events as there are inputs |
| Hub.ConcatPrefix | backend/internal/api/websocket.go:117-123 | the first k messages of a batch are, byte for byte, the start of its frame |
| Hub.BatchHidesBoundaries | backend/internal/api/websocket.go:117-123 | two messages batched into one frame give the same frame as one message made of both |
| Hub.Client.constructor | backend/internal/api/websocket.go:83 | a new client has an empty open queue and a running pump |
| Hub.Client.WriteBatch | backend/internal/api/websocket.go:112-128 | the pump writes the head message and every message queued at that moment as one frame, in FIFO order with no separator; a writer failure takes only the head and ends the pump; a close failure drops the frame and ends the pump |
| Hub.Client.Finish | backend/internal/api/websocket.go:129 | once the queue is closed and drained, the pump sends a close frame and ends |
| Hub.Hub.constructor | backend/internal/api/websocket.go:37-42 | the hub starts with no clients |
| Hub.Hub.Register | backend/internal/api/websocket.go:48-50 | the client joins the set; registering it again changes nothing |
| Hub.Hub.Accept | backend/internal/api/websocket.go:77-88 | an upgraded connection gets a fresh client with an empty queue, and it is registered |
| Hub.Hub.Unregister | backend/internal/api/websocket.go:51-56 | a registered client leaves and its queue is closed; an unknown one changes nothing, so no queue is closed twice |
| Hub.Hub.Broadcast | backend/internal/api/websocket.go:57-65 | every client with room gets the message at its tail; exactly the clients whose queue was full are closed and removed; no client is added; every queue stays within 256 |
| Hub.Hub.BroadcastEvent | backend/internal/api/websocket.go:133-140 | an event that fails to serialize changes nothing; otherwise every client with room gets its bytes at the tail, and exactly the clients whose queue was full are closed and removed, their queue unchanged |
| Middleware.SplitFirstSpace | backend/internal/middleware/middleware.go:26 | `SplitN(s, " ", 2)`: one part, equal to `s`, iff there is no space; otherwise a space-free head and the tail that rebuild `s` |
| Middleware.SplitJoinRoundTrip | backend/internal/middleware/middleware.go:26 | a space-free head, a space and any tail split back into exactly that head and tail |
| Middleware.BearerToken | backend/internal/middleware/middleware.go:17-34 | a token is found iff the header starts with "Bearer ", and the header is "Bearer " followed by the token |
| Middleware.BearerRoundTrip | backend/internal/middleware/middleware.go:26-35 | any header of the form "Bearer " + token yields exactly that token, including an empty token or one with spaces; the web client builds such headers for non-empty tokens only (frontend/src/api/client.ts lines 18-19) |
| Middleware.SchemeIsExact | backend/internal/middleware/middleware.go:27 | the scheme is case-sensitive, and a header with no space carries no token |
| Middleware.Authenticate | backend/internal/middleware/middleware.go:14-48 | the chain continues iff there is a Bearer token and the parser accepts it, with that token's user ID and role in the context; otherwise 401 with the failure (missing header, malformed header, invalid token) named |
| Middleware.ParserOnlySeesBearerTokens | backend/internal/middleware/middleware.go:17-31 | without a well-formed Bearer header the request is aborted, whatever the parser would say |
| Middleware.ClientTokenAccepted | backend/internal/middleware/middleware.go:26-46 | a client header carrying a token the parser accepts goes through with its claims |
| Middleware.Cors | backend/internal/middleware/middleware.go:51-71 | the four Access-Control headers are always set; the request is aborted iff it is `OPTIONS`, and then with 204 |
| Middleware.ProtectedRoute | backend/internal/api/router.go:15-28 | on a protected route CORS runs before the token check: the CORS headers are always set; a preflight is aborted with 204; any other request reaches the handler iff the check lets it through, carrying the check's claims, and is otherwise aborted with 401 |
| Middleware.PreflightNeedsNoToken | backend/internal/middleware/middleware.go:63-67 | a preflight on a protected route is aborted, with the same outcome whatever header it carries and whatever the parser would say |
| Store.Prepend | frontend/src/store/useStore.ts:85-86 | the new message is first, the list holds at most 100, and the rest is the old list's first 99 in order |
| Store.PrependKeepsNewest | frontend/src/store/useStore.ts:86 | prepending is putting the message in front and keeping the newest 100: only the oldest are dropped |
| Store.ConsoleShowsNewestFirst | frontend/src/store/useStore.ts:85-87 | after any run of live messages, the list is the arrivals newest-first, then the old list, cut to 100 |
| Store.AppStore.constructor | frontend/src/store/useStore.ts:36-39 | the token is read back from storage; the console counts as logged in iff that token is non-empty; list and configuration start empty |
| Store.AppStore.SetToken | frontend/src/store/useStore.ts:44-47 | the token is stored and set, and the console is logged in |
| Store.AppStore.Logout | frontend/src/store/useStore.ts:52-55 | the stored token is removed, the token cleared, and the console logged out |
| Store.AppStore.FetchMessages | frontend/src/store/useStore.ts:60-68 | a successful fetch replaces the list wholesale; a failed one leaves it as it was |
| Store.AppStore.FetchConfig | frontend/src/store/useStore.ts:73-80 | a successful fetch replaces the configuration wholesale; a failed one leaves it as it was |
| Store.AppStore.AddMessage | frontend/src/store/useStore.ts:85-87 | the list becomes `Prepend(msg, old list)` |

## Left out

- Concurrency:
  - Goroutines, `select`, blocking channel sends and interleavings are not modelled.
  - `processLoop` starts `saveMessage` and `handleLLMReply` as goroutines, so across events the source promises no order between rows or between replies. The model runs each event's save, broadcast and reply to completion, in that order, before the next event. The queue-order lemmas hold for that one schedule.
  - `Start` hands each QQ frame to `parseMessage` on its own goroutine. The model handles frames in read order.
- Timing and randomness:
  - The five-second reconnect pause and the actual sleep of `RandomDelay` are not executed.
  - The `echo` token is built from the clock and is taken as a parameter, with no claim of uniqueness.
- BotTypes.RandomDelay: Go's `int` overflow of `maxMs - minMs` is not modelled, because integers here are unbounded.
- The `BotAdapter` interface is not a declared type here. Both adapter classes offer its four operations, each send returning an `Outcome`.
- JSON and wire I/O are not modelled: `json.Unmarshal`, `json.Marshal`, `WriteJSON`, dialing, upgrading, `ReadMessage`, `NextWriter`, and `readPump` (which only feeds `Unregister`). Their outcomes are inputs.
- Discord.DiscordBot.Start: `discordgo.New` is taken never to fail. The intents and handler registration are not modelled.
- Discord.DiscordBot.SendMessage: the source dereferences the session, and a send before `Start` panics. The model requires a session instead.
- Manager.BotManager.SendReply: it requires a session for a reply routed to Discord, for the same reason.
- QQ.QQBot.Start: the supervisor never returns. It is modelled over a finite trace of I/O outcomes that fits where it stands.
- Storage failures:
  - A GORM insert is taken always to succeed.
  - GORM, Postgres, configuration loading, logging and the handlers are not part of this model.
- The clock is read twice per event: once by `saveMessage` and once by `SendReply`, after the pause and the model call. The two readings are independent inputs (`savedAt`, `repliedAt`). No order between them is assumed.
- The language-model SDK is not modelled. Its answer is the `LlmResult` input.
- JWT signing and verification are not modelled. The parser is a function parameter.
- Middleware.Cors: the two list-valued headers are stated as constants equal to the source's strings. They are not split into items.
- Middleware.ProtectedRoute: the router's other routes and the handlers behind the check are not modelled. A request that passes the check ends at `ToHandler`, and the status the handler then sets is not modelled.
- Store.AppStore.Valid: the axios 401 interceptor in frontend/src/api/client.ts removes the stored token without touching the store. That path, which breaks the token mirror the invariant states, is not modelled.
- Hub.Client.WriteBatch:
  - `writePump` concatenates the batched messages into one text frame with no separator.
  - The console parses each frame as a single JSON value (frontend/src/pages/ChatConsole.tsx line 30), so a frame holding more than one event would not parse there.
  - `BatchHidesBoundaries` states the loss of boundaries. The console is not part of this model.
- The React pages and components are not part of this model.
