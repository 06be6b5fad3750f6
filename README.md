# WhatsApp session controller, modelled in Dafny

server.js runs one WhatsApp Web session through the Baileys client library. It pushes the
session's life to browser observers over socket.io. This project models the part of it that
makes decisions:

- **`connectToWhatsApp`** creates a session: it loads the stored credentials, makes a Baileys
  socket and stores it in the module-level `sock`. Here it is `Server.Controller.Connect`. It
  counts session creations and records the live socket.
- **The `connection.update` handler** broadcasts the rendered QR code and the scan prompt when
  an update carries a QR string. On a close it reports the lost connection. Then it either
  reconnects at once, or, when the close status code is Baileys' logged-out sentinel (401),
  tells the user to delete the credentials folder. On an open it hides the QR and reports
  "Connected & Online". `ConnectionUpdate.React` gives this reaction as a value;
  `Server.Controller.OnConnectionUpdate` performs it on the server state.
- **The `messages.upsert` handler** looks only at the first message of a batch. It skips
  self-sent and payload-less messages. It projects the rest onto one `new_message` event, using
  JavaScript truthiness fallbacks for the text and the sender name (`MessagesUpsert.OnUpsert`).
- **The socket.io `connection` handler** greets a newly attached observer with
  "Initializing...". When the live socket has a `user`, it then sends "Connected" and a "hide QR"
  signal (`Server.Greeting`, `Server.Controller.OnAttach`).

The server state is a class, `Server.Controller`. It holds the session count, the live socket,
the log of every `io.emit`, and what each attached observer has received. Its methods are
proved against the pure functions above. Its invariant ties the state to two things. First,
`History.Log`: the broadcast log is a function of the socket events handled so far. Second, each
observer has received its greeting and then exactly the broadcasts made since it attached. The
lemmas in `History` then state what holds over any sequence of events:

- every close with a reason is reported exactly once;
- each such close is resolved by exactly one new session or, for a logout, by the logout notice;
- there is one `new_message` per forwarded batch, and every `new_message` comes from a handled
  batch.

Some behaviour of server.js worth stating plainly, as the model has it:

- server.js reconnects immediately after a close, with no backoff delay;
- a late observer is not shown the current QR code, only the fixed greeting;
- the logout close broadcasts the lost connection and then the logout notice;
- server.js has no pairing-code bootstrap.

## Model

| member | source | states |
|---|---|---|
| `Emissions.Or` | server.js:77-78 | JavaScript `a || fallback` on an optional string: `a` when it is present and non-empty, else the fallback; non-empty whenever the fallback is |
| `ConnectionUpdate.StatusCode` | server.js:48 | the close status code is absent whenever the error or its output is absent, and otherwise it is exactly the output's `statusCode` (so a Boom error whose output carries 401 yields 401) |
| `ConnectionUpdate.ShouldReconnect` | server.js:48 | no decision (a TypeError) exactly when `lastDisconnect` is absent; "do not reconnect" exactly when the status code equals the logged-out sentinel; a missing error or missing status code means reconnect |
| `ConnectionUpdate.QrEmissions` | server.js:39-45 | a truthy QR string gives exactly two broadcasts, the rendered image then "Scan the QR Code"; an absent or empty one gives none |
| `ConnectionUpdate.ConnectionBranch` | server.js:47-64 | a close reports "Connection Lost. Reconnecting..." and then either reconnects (status code is not the sentinel) or adds the logout notice; an open sends `qr null` then "Connected & Online"; only a non-logout close reconnects; a close without `lastDisconnect` throws and emits nothing; other states emit nothing |
| `ConnectionUpdate.React` | server.js:36-65 | one update starts a new session exactly when it is a close with a reason other than logout, and throws exactly when it is a close without `lastDisconnect` |
| `ConnectionUpdate.ReactionOrder` | server.js:39-64 | the QR broadcasts always come first; a close then reports the lost connection, a logout adds the notice, an open hides the QR and reports the connection; an update with neither QR nor open/close emits nothing |
| `ConnectionUpdate.ReactionHasNoMessage` | server.js:36-65 | the connection handler never broadcasts a `new_message` |
| `MessagesUpsert.ExtractText` | server.js:77 | the text is the conversation text if truthy, else the extended text if truthy, else "Media/Unknown"; it is never empty |
| `MessagesUpsert.DisplayName` | server.js:78 | the sender name is the push name if truthy, else "Unknown User"; it is never empty |
| `MessagesUpsert.OnUpsert` | server.js:71-88 | an empty batch throws; a batch is ignored exactly when its first message is self-sent or has no payload; otherwise one `new_message` carries that message's unchanged `remoteJid`, its display name and its text |
| `MessagesUpsert.PingFromAlice` | server.js:71-87 | a "ping" text from Alice, not self-sent, is forwarded as one `new_message` with pushName "Alice" and text "ping" |
| `MessagesUpsert.OnlyFirstMessageMatters` | server.js:72-74 | two batches with the same first message get the same reaction |
| `History.Emitted` | server.js:36-94 | handling one socket event broadcasts the connection handler's reaction, or the batch's one `new_message`, or nothing |
| `History.EmittedCounts` | server.js:39-87 | one event broadcasts one lost-connection status exactly when it is a close with a reason, one logout notice exactly when it is a logout close, and one `new_message` exactly when it is a forwarded batch |
| `History.LostConnectionsReported` | server.js:47-56 | over any event history, the log holds as many lost-connection statuses as there were closes with a reason, and as many logout notices as logout closes |
| `History.ClosesResolved` | server.js:48-56 | over any event history, the closes with a reason equal the sessions they created plus the logout closes |
| `History.MessagesForwarded` | server.js:71-88 | over any event history, the log holds one `new_message` per batch whose first message was forwarded |
| `History.EmittedMessageSource` | server.js:72-87 | a `new_message` broadcast while handling one event is the projection of that event's batch |
| `History.NewMessageHasSource` | server.js:72-87 | every `new_message` in the log is the projection of some handled batch, so none comes from a self-sent or payload-less message |
| `History.NoSessionAfterLogout` | server.js:48-56 | a logout close creates no session, and after it the count stays the same unless a further close with another reason is delivered |
| `Server.Greeting` | server.js:100-106 | a new observer is first sent "Initializing..."; if the socket has a user it is then sent "Connected" and `qr null`, and otherwise nothing more; it is never sent a QR image |
| `Server.Controller.constructor` | server.js:18-19 | at module load there is no socket, no session, no broadcast and no observer |
| `Server.Controller.Connect` | server.js:22-33 | a session creation increments the count and makes the new socket the live one |
| `Server.Controller.Start` | server.js:110 | process start creates exactly one session |
| `Server.Controller.Broadcast` | server.js:43 | an `io.emit` appends the event to the log and to the inbox of every attached observer, and to nothing else |
| `Server.Controller.AnnounceQr` | server.js:39-45 | the QR block appends exactly the QR broadcasts to the log |
| `Server.Controller.HandleClose` | server.js:47-56 | the close branch broadcasts the lost connection, then creates exactly one session or, for a logout, broadcasts the notice and leaves the live socket alone |
| `Server.Controller.HandleOpen` | server.js:57-60 | the open branch appends `qr null` then "Connected & Online" |
| `Server.Controller.HandleConnection` | server.js:47-64 | the connection branch appends that branch's broadcasts, creates a session exactly when it reconnects, and reports the throw |
| `Server.Controller.OnConnectionUpdate` | server.js:36-65 | handling an update appends exactly `React`'s broadcasts, adds one session exactly on a non-logout close, and keeps the server invariant |
| `Server.Controller.OnMessagesUpsert` | server.js:71-94 | handling a batch appends its `new_message` if it is forwarded and nothing otherwise, throws exactly on an empty batch, and keeps the server invariant |
| `Server.Controller.OnAttach` | server.js:98-107 | a new observer's inbox is its greeting; no other observer's inbox and no broadcast changes |

## Left out

- The pairing-code bootstrap is not part of server.js, so it is not modelled.
- Socket construction and its options, the wire protocol, and the socket's `user` field belong to
  Baileys. The socket is an opaque handle numbered by creation. Whether it has a `user` is an
  input to `OnAttach`.
- Credential loading and saving on `creds.update` are file I/O owned by Baileys.
- QR image encoding is a function parameter, `toDataUrl`, and is never interpreted. Printing the
  QR to the terminal is left out too.
- Express static serving, the HTTP server, `server.listen`, console logging and the pino logger
  are I/O plumbing.
- Handlers run to completion, one at a time. Two interleavings are not modelled. One is an update
  arriving while the QR image is being encoded. The other is a discarded socket's late events
  arriving after a reconnect. Session creation is treated as one step, although in server.js
  `sock` is assigned only after the credentials load.
- What happens to a TypeError thrown inside a handler is not modelled. The model records that the
  handler threw and stopped broadcasting.
- Observers detaching is handled inside socket.io, and server.js has no handler for it.
- The browser page's treatment of `qr null` is not part of this model, so neither is the
  idempotence of hiding an already hidden QR.
- The commented-out auto-reply and `loadChats` calls are dead code.
- `History.NoSessionAfterLogout`: server.js keeps no logged-out latch. "No further session after
  a logout" therefore holds only while no further close with another reason arrives, and the
  lemma takes that as its premise on the later events. That a closed socket emits nothing more
  is Baileys' behaviour; events are not tagged with the socket that emitted them, so the model
  does not derive the premise.
- QR rendering never fails in the model: `toDataUrl` is a total function. In server.js
  `QRCode.toDataURL` (server.js:42) can reject; the handler then stops before any broadcast of
  that update and does not reconnect, even on a close. The model does not capture that path.
- `Server.Controller.Connect` always succeeds. In server.js `useMultiFileAuthState`
  (server.js:24) can reject; `sock` then keeps its old value and no handlers are registered. The
  model does not capture that path, and the reconnect of `HandleClose` therefore always yields a
  new live socket.
