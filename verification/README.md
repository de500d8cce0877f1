# pg-notify relay, modelled in Dafny

pg-notify relays PostgreSQL `LISTEN`/`NOTIFY` notifications to WebSocket
clients and lets clients and an HTTP API publish notifications back. This
project models three parts of it:

- **The channel registry** (`NotificationService`), as the class
  `Notifications.NotificationService`. It holds two maps:
  - channel → the dedicated listening database client;
  - channel → the set of callbacks registered for that channel.

  Its invariant is that both maps always have the same channels. The
  registry's operations are:
  - `subscribe`, `unsubscribe`, `closeListener`, `closeAll` and
    `getActiveChannels`;
  - the notification handler, which decodes a payload and passes it to
    every callback of the channel;
  - `publish`, which builds a `NOTIFY channel, '<text>'` command.
    Quote doubling in that command follows the string-constant rule of the
    PostgreSQL documentation, section 4.1.2.1 ("String Constants"), as it
    reads with `standard_conforming_strings` on. Its proof is a reader for
    such constants: reading back an escaped, quoted payload gives exactly
    the payload.
- **The connection multiplexer** (`WebSocketService`), as the class
  `WebSockets.WebSocketService`. It holds connection → set of subscribed
  channel names, and it dispatches client requests (`subscribe`,
  `unsubscribe`, `publish`, `list`, anything else). Each subscription
  registers a fresh callback. A callback pushes a `notification` message
  to its connection while that connection is open.

  The multiplexer's invariant `Valid()` holds after every operation:
  - every registered callback is one the multiplexer created, for the
    channel it is registered under;
  - a connection with an entry has not closed;
  - every channel in a connection's set is backed by at least one
    registered callback that pushes to that connection, so a `subscribed`
    reply is always backed by a registration.

  The ghost set `closed` records every connection whose socket has closed.
  A closed socket never reopens, so whether a connection is open, a
  predicate on connection handles, is false on every closed connection, and
  no notification is ever sent to one.
- **The HTTP handlers** under `/api/notifications` (`/publish`, `/chat`,
  `/order`, `/system`, `/channels`), as pure functions in `Routes`. Each
  one checks its required fields for JavaScript truthiness, fills in
  defaults, picks a channel, and forwards to `publish`.

Outside effects are parameters:
- Callbacks are numbered identities, and a database client is an opaque
  handle.
- The outcomes of connect, `LISTEN`, `UNLISTEN` and `end` are booleans.
- The outcomes of checking out a pooled client and running the `NOTIFY`
  query are `Outcome<string>` values that carry the driver's error message.
- `JSON.parse` and `JSON.stringify` are function parameters.
- Whether a connection is open is a predicate on connection handles.
- The current time is a string parameter.

JavaScript values (`undefined`, `null`, booleans, numbers, strings,
arrays and objects) are the datatype `Values.Value`. `Truthy` follows
JavaScript's truthiness, `Or` is `a || b`, and `Field` reads an object
property, where the last occurrence of a key wins.

**The multiplexer is modelled as the code is written.** `unsubscribeClient`
and `handleDisconnect` edit only the multiplexer's own map. They never call
the registry's `unsubscribe`, so every callback stays registered, and so
does the channel's listener. A design where unsubscribing or disconnecting
also removes the connection's callbacks, and closes a channel whose last
subscriber leaves, is not what the code does, so the model does not do it
either:
- `WebSockets.WebSocketService.Live(ws, ch)` is the set of registered
  callbacks that push to `ws` for `ch`. `UnsubscribeClient` and
  `HandleDisconnect` are proved to leave it unchanged.
- `Scenarios` works through the consequences on concrete runs:
  - a connection that subscribes, unsubscribes and subscribes again gets
    every later notification twice;
  - after the only subscriber disconnects, the channel stays active.

Modules: `Wrappers` (Option, Result, Outcome), `Values`, `Collections`
(distinct sequences, and listing a set as `Array.from` does), `SqlLiteral`,
`Notifications`, `WebSockets`, `Routes`, `Scenarios`.

## Model

| member | source | states |
|---|---|---|
| SqlLiteral.EscapeLength | src/services/NotificationService.ts:99 | Doubling quotes lengthens the text by exactly the number of single quotes in it. |
| SqlLiteral.UnescapeEscape | src/services/NotificationService.ts:99 | Collapsing each `''` back to `'` recovers the original text, so every other character is kept, in order. |
| SqlLiteral.ReadBodyEscaped | src/services/NotificationService.ts:99 | The escaped text followed by a closing quote reads back as exactly the original text, and the reader stops at that closing quote. With `standard_conforming_strings` on, a payload therefore cannot end the constant early. |
| SqlLiteral.LiteralRoundTrip | src/services/NotificationService.ts:99 | `'` + escaped text + `'` is read as one string constant that denotes the original text, with nothing consumed after it. |
| Notifications.Publish | src/services/NotificationService.ts:92-107 | A pool failure fails with the pool's error. An `undefined` payload fails with the TypeError from `.replace`. A failed query fails with the query's error. Publishing succeeds exactly when none of these happen. On success the command is `NOTIFY <channel>, ` followed by a constant that reads back as the serialised payload, and a string payload reads back verbatim. |
| Notifications.Decode | src/services/NotificationService.ts:37-42 | Text that parses gives the parsed value. Text that does not parse gives an object whose `message` is the raw text. A missing or empty payload is parsed as `'{}'`, giving the empty object. |
| Notifications.NotificationService.constructor | src/services/NotificationService.ts:12-13 | The registry starts with both maps empty, which satisfies the invariant. |
| Notifications.NotificationService.Subscribe | src/services/NotificationService.ts:18-66 | The call succeeds exactly when the channel already has a listener or connect and LISTEN both succeed. On failure it returns the failing step and neither map changes. On success a new channel gets the given client, and the callback joins the channel's set. A channel that already has a listener keeps it, and subscribing an already-registered callback changes nothing. The two maps keep the same channels. |
| Notifications.NotificationService.Unsubscribe | src/services/NotificationService.ts:71-87 | With a callback on an unknown channel, nothing changes. With a callback on a known channel, the callback is removed, and when the set becomes empty and UNLISTEN and `end` both succeed, the channel is dropped from both maps; otherwise the emptied set is kept. Without a callback, the listener is closed whatever the set's size. |
| Notifications.NotificationService.CloseListener | src/services/NotificationService.ts:112-125 | The channel leaves both maps together when it has a listener and UNLISTEN and `end` succeed. Otherwise both maps are unchanged and no error is reported. |
| Notifications.NotificationService.CloseAll | src/services/NotificationService.ts:130-133 | Afterwards both maps hold exactly the channels whose close failed, with their old entries. |
| Notifications.NotificationService.GetActiveChannels | src/services/NotificationService.ts:138-140 | Lists each channel with a listener exactly once. These are exactly the keys of the callback map too. |
| Notifications.NotificationService.Deliver | src/services/NotificationService.ts:33-45 | A notification is dispatched exactly when its channel is the handler's channel and that channel still has a callback set. The payload is decoded once. Every callback in the set is a target exactly once, and nothing else is. |
| Collections.Enumerate | src/services/NotificationService.ts:139 | Lists a set with no repetitions, holding exactly the set's elements, so the list length equals the set's size. |
| WebSockets.WebSocketService.constructor | src/services/WebSocketService.ts:7-12 | The multiplexer starts with no connections and no callbacks, on a registry whose callback sets are empty. |
| WebSockets.WebSocketService.OnConnection | src/services/WebSocketService.ts:15-46 | A new connection, neither current nor closed, gets an empty channel set, nothing else changes, and the greeting lists the four example channels. The invariant is kept. |
| WebSockets.WebSocketService.SubscribeClient | src/services/WebSocketService.ts:90-124 | A connection with no entry changes nothing and gets no reply. An already-subscribed channel gets an `info` reply and no registry call. Otherwise a fresh callback identity for (connection, channel) is registered. The channel joins the connection's set, with a `subscribed` reply, only when the registry subscribe succeeds; on failure the error is passed on and the set is unchanged. The connection's live callbacks for the channel grow by exactly the fresh one. The invariant is kept. |
| WebSockets.WebSocketService.NewCallback | src/services/WebSocketService.ts:103-112 | The new callback takes the next identity, which no earlier callback has. It is recorded as pushing to (connection, channel), and nothing the registry holds changes. |
| WebSockets.WebSocketService.Listen | src/services/WebSocketService.ts:114 | The registry subscribe succeeds exactly when the channel already has a listener or connect and `LISTEN` both succeed. On failure the error is passed on and the registry is unchanged. On success the callback is added to the channel's set, and the connection's live callbacks for the channel grow by exactly that callback. Every channel a connection is subscribed to stays backed. |
| WebSockets.WebSocketService.Register | src/services/WebSocketService.ts:102-121 | For a connection with an entry and a channel not in its set: a fresh callback is created and registered; only if the registry accepts it does the channel join the connection's set, with a `subscribed` reply. |
| WebSockets.WebSocketService.Join | src/services/WebSocketService.ts:115 | The channel joins the connection's set, and nothing else changes. The connection already has a live callback for it, so the invariant is kept. |
| WebSockets.WebSocketService.UnsubscribeClient | src/services/WebSocketService.ts:126-145 | A connection or channel not subscribed gets an `info` reply and nothing changes. Otherwise just that channel leaves just that connection's set, with an `unsubscribed` reply. The registry is unchanged, so the connection's live callbacks for the channel remain. |
| WebSockets.WebSocketService.HandleDisconnect | src/services/WebSocketService.ts:147-153 | The connection's entry is removed, no other entry changes, and the connection is closed for good. The registry is untouched, and every live callback of the connection stays registered. |
| WebSockets.WebSocketService.HandleMessage | src/services/WebSocketService.ts:52-88 | `subscribe` and `unsubscribe` have the effects above. `publish` changes no state, and replies `published` exactly when the registry's publish succeeds; a failure is passed on as an error. `list` replies with the connection's own channels and the registry's active channels, each once. Any other type gets an `error` reply that echoes the type, or `undefined` when the request has none, with no state change. |
| WebSockets.WebSocketService.OnMessage | src/services/WebSocketService.ts:19-30 | An undecodable request, or a handler that throws, gets the reply `error: Invalid message format`. An undecodable request changes no state. Otherwise the handler's reply is sent. |
| WebSockets.WebSocketService.DeliverNotification | src/services/WebSocketService.ts:103-112 | When the registry dispatches a notification, the callbacks that push are exactly the channel's registered callbacks whose connection is open, each once. Each one sends a `notification` carrying the channel and the decoded payload to its own connection. No send goes to a closed connection. A notification that is not dispatched sends nothing. |
| Routes.PublishRoute | src/routes/notifications.ts:10-35 | A missing or empty channel gives 400 `Channel is required` and no publish. Otherwise the route publishes the payload, or `{}` when the payload is falsy, on that channel. It answers 200 exactly when publishing succeeds and 500 with the error's message otherwise. The 200 reply echoes the channel and the payload as received. |
| Routes.ChatPayload | src/routes/notifications.ts:63-68 | The chat payload carries `user`, `message` and the timestamp, and `room` defaults to `general` when it is falsy. |
| Routes.ChatRoute | src/routes/notifications.ts:53-84 | A falsy `user` or `message` gives 400 and no publish. Otherwise the payload is published on `chat` with the room default. The status is 200 exactly when publishing succeeds and 500 with the error's message otherwise, and the 200 reply carries the payload. |
| Routes.OrderPayload | src/routes/notifications.ts:100-106 | The order payload carries `orderId`, `status`, `customerId`, `details` and the timestamp as given. |
| Routes.OrderRoute | src/routes/notifications.ts:90-122 | A falsy `orderId` or `status` gives 400 and no publish. Otherwise the payload is published on `orders`. The status is 200 exactly when publishing succeeds and 500 with the error's message otherwise, and the 200 reply carries the payload. |
| Routes.SystemPayload | src/routes/notifications.ts:138-144 | The system payload carries `type`, `message`, `metadata` and the timestamp, and `severity` defaults to `info` when it is falsy. |
| Routes.SystemRoute | src/routes/notifications.ts:128-160 | A falsy `type` or `message` gives 400 and no publish. Otherwise the payload is published on `system` with the severity default. The status is 200 exactly when publishing succeeds and 500 with the error's message otherwise, and the 200 reply carries the payload. |
| Routes.SentReply | src/routes/notifications.ts:72-76 | The success reply of the chat, order and system handlers is `success: true` with its message and the payload. |
| Routes.ChannelsRoute | src/routes/notifications.ts:41-47 | Replies 200 with every active channel exactly once, and with `count` equal to the number of channels. |
| Scenarios.Subscribed | src/services/WebSocketService.ts:90-124 | After one connection connects and subscribes to `chat`, the registry listens on `chat` with that connection's single callback. |
| Scenarios.SubscribedThenLeft | src/services/WebSocketService.ts:126-145 | After that connection unsubscribes, its channel set is empty, yet its callback is still registered for `chat`. |
| Scenarios.Resubscribe | src/services/WebSocketService.ts:103-115 | Subscribing again registers a second callback for the same connection and channel next to the first. |
| Scenarios.ResubscribeDeliversTwice | src/services/WebSocketService.ts:103-112 | The next notification on `chat` is then pushed to that connection twice. |
| Scenarios.DisconnectKeepsChannelActive | src/services/WebSocketService.ts:147-153 | After the only subscriber disconnects, `chat` is still an active channel, and a notification on it reaches no one. |

## Left out

- Interleavings across `await`. Each operation is atomic. For example, two concurrent first subscriptions to one channel could both open a client, and that race is not modelled.
- `JSON.parse` and `JSON.stringify` are parameters, not a JSON implementation. `stringify` is total. The model does not cover `JSON.stringify` returning `undefined` for values other than `undefined` (functions and symbols are not values here), or throwing on cycles.
- Timestamps: `new Date().toISOString()` is a string parameter of the handlers. The model leaves the `timestamp` field out of the `notification` message.
- Console logging.
- Set iteration order. JavaScript visits a `Set` in insertion order. `Collections.Enumerate` promises some order without repetitions, so the order in which callbacks fire and channels are listed is not modelled.
- A callback that throws would stop `forEach` from calling the rest of the set. Callbacks here do not throw.
- Notifications.NotificationService.Subscribe: the client opened for a channel whose `LISTEN` then fails is left connected in the source. The model records no client in that case and does not track the leaked one.
- Notifications.NotificationService.CloseListener: `UNLISTEN` succeeding while `end` fails leaves the client no longer listening but still in both maps. The model shows the maps unchanged and does not track whether the client still listens.
- The channel name is put into `LISTEN`, `NOTIFY` and `UNLISTEN` unquoted and is never validated. The model adds no check either, and it does not model the database rejecting a malformed name other than as a failed `LISTEN` or query.
- Request fields of other JavaScript types. A request's `type` is a string or absent, and its `channel` is a string. A decoded number, string, boolean or array is a request without a type, answered `Unknown message type: undefined`; only text that is not JSON, and JSON `null`, are undecodable. A `type` of another kind (a number, say) is not modelled: the source would echo its text form. The `/publish` channel is either missing or a string. Numbers are integers.
- SqlLiteral.ReadBody: the reader assumes `standard_conforming_strings = on`, the server default since PostgreSQL 9.1. With it off, a backslash escapes the next character inside an ordinary constant, and the quote doubling at src/services/NotificationService.ts:99 no longer protects the command: a payload `\` leaves the constant unclosed, and a payload `\'; SELECT 1; --` closes it early and runs a second statement.
- Notifications.NotificationService.Deliver: the channel name of an arriving notification is an input, not linked to the name given to `LISTEN`. PostgreSQL lower-cases the unquoted name in `LISTEN ${channel}`, so for a name with an upper-case letter the notifications arrive under the lower-case name and the handler's exact comparison never matches: the client is told it subscribed and then receives nothing. Two names that differ only in case also open two clients on one database channel. The model does not capture this case folding.
- `broadcast` and `getClientCount` only wrap the `ws` library's client set, which is not part of this model.
- The `ws` and `pg` libraries themselves: the socket transport, connection objects and the pool.
- src/scripts/setup-db.ts (schema and triggers) and src/index.ts (server wiring, health check, shutdown hooks) are not part of this model.
