# Avalon realtime transport and form validators, in Dafny

This project models three parts of the Avalon mini-program and its backend, and proves properties of them:

- **The backend's WebSocket server** (`packages/backend/src/websocket/server.ts`). `WSServer` gives raw `ws` connections a Socket.IO-like surface. It keeps three tables:
  - `clients`: id to connection;
  - `sockets`: id to `SocketWrapper`;
  - `rooms`: room name to the set of member ids.
  Each connection also keeps its own set of rooms. Module `Server` models this as the classes `Client`, `SocketWrapper` and `WSServer`. `WSServer.Valid()` states the invariant that every operation keeps:
  - no room is empty;
  - a connection's room set and the registry agree, in both directions;
  - every connected client has its wrapper;
  - every id was made from a counter value already handed out.
  Connection ids `client_N` are in module `ClientIds`. There, `SerialOf` parses an id back to its counter value, and that round trip is what makes fresh ids fresh.
- **The mini-program's socket client** (`packages/mp/src/api/socket.ts`). `SocketService` queues frames while offline, flushes them in order on open, calls local listeners for `connect` and `disconnect`, matches acknowledged emits to their replies with a 30-second timeout, and reconnects with capped exponential backoff. As written, an event pushed by the server is not passed to its listeners but sent back to the server (see Findings); the model states both that behaviour and the intended one. Module `ClientTransport` models it as a class. The platform's callbacks and timers are methods the environment calls:
  - `OnOpen`, `OnClose`, `OnError`, `ConnectFail`;
  - `HandleMessage`;
  - `ReconnectTimerFires`, `AckTimeout`, `AuthReconnectFires`.
- **The form validators** (`packages/mp/src/utils/validators.ts`). Module `Validators` holds:
  - the four single-field rules, as functions whose contracts characterise exactly which texts pass;
  - the first-failure combinator `validateAll`, as a loop proved against `FailingIndex`;
  - `validateForm`, as a loop that builds the error map.

Module `Wire` holds the frame `{ event, data, ackId? }` as a datatype, together with the JSON values it carries.

Observable effects are recorded as sequences:
- a frame handed to a server connection's `send` is appended to that `Client`'s `outbox`;
- a frame handed to the client's socket task is appended to `SocketService.transmitted`;
- each call of a client listener is appended to `notifications`;
- each settlement of an `emitWithAck` promise is appended to `resolutions`;
- each emit on a server-side socket that has at least one handler for the event is appended once to `SocketWrapper.dispatched`; every handler registered for that event is called with it, and the number of handlers is `listenerCounts`.

## Model

| member | source | states |
|---|---|---|
| `ClientIds.Decimal` | packages/backend/src/websocket/server.ts:108 | The counter's text in the id is all digits, at least one, with no leading zero unless the counter is 0. |
| `ClientIds.ClientId` | packages/backend/src/websocket/server.ts:108 | An id is `client_` followed by digits only. |
| `ClientIds.ParseDecimalRoundTrip` | packages/backend/src/websocket/server.ts:108 | Reading back the decimal text of a counter value gives that value. |
| `ClientIds.SerialOfClientId` | packages/backend/src/websocket/server.ts:108 | The id `client_N` parses back to N. |
| `ClientIds.ClientIdInjective` | packages/backend/src/websocket/server.ts:108 | Different counter values give different ids, so ids are pairwise distinct. |
| `Wire.Spread` | packages/backend/src/websocket/server.ts:181-182 | Spreading succeeds exactly for an array or a string: an array gives its items, a string one single-character text per character; any other value throws. |
| `Wire.SpreadTextRoundTrip` | packages/backend/src/websocket/server.ts:181-182 | The characters a string spreads into, joined again, are the string. |
| `Server.RemoveMember` | packages/backend/src/websocket/server.ts:274-280 | After a leave, only that room's set changes: it loses the id. The room's entry is gone exactly when the set became empty, and every other room is kept. |
| `Server.RemoveFromStep` | packages/backend/src/websocket/server.ts:187-189 | Leaving one more room in the `forEach` matches removing the id from that room after the rooms already left. |
| `Server.RemoveFromAll` | packages/backend/src/websocket/server.ts:185-189 | Leaving every room a member is in takes the id out of every room, and rooms left empty are dropped. |
| `Server.Client.constructor` | packages/backend/src/websocket/server.ts:107-115 | A new connection is open, with its id and token, an empty room set and nothing sent. |
| `Server.Client.Close` | packages/backend/src/websocket/server.ts:77-79 | `close()` moves an open socket to closing and leaves a socket in any other state as it was. |
| `Server.SocketWrapper.constructor` | packages/backend/src/websocket/server.ts:46-54 | A wrapper shares its client's id and starts with no listeners. |
| `Server.SocketWrapper.On` | packages/backend/src/websocket/server.ts:36 | Registering a handler raises that event's listener count by one and changes no other count. |
| `Server.SocketWrapper.EmitInternal` | packages/backend/src/websocket/server.ts:82-84 | An internal event reaches the handlers exactly when the event has a listener. |
| `Server.SocketWrapper.Emit` | packages/backend/src/websocket/server.ts:65-75 | With a listener, the event is handled locally and nothing is sent. Without one, only the first argument goes to the client, and only if its socket is open. |
| `Server.SocketWrapper.Join` | packages/backend/src/websocket/server.ts:56-58 | Same as `WSServer.JoinRoom`, for the wrapper's connection. |
| `Server.SocketWrapper.Leave` | packages/backend/src/websocket/server.ts:60-62 | Same as `WSServer.LeaveRoom`, for the wrapper's connection. |
| `Server.SocketWrapper.Disconnect` | packages/backend/src/websocket/server.ts:77-79 | Closes the connection: an open socket starts closing. |
| `Server.WSServer.constructor` | packages/backend/src/websocket/server.ts:90-99 | All tables start empty, the counter starts at 0, and the invariant holds. |
| `Server.WSServer.FreshIdUnused` | packages/backend/src/websocket/server.ts:108 | The next id `client_{counter+1}` belongs to no accepted client, no connected client and no room. |
| `Server.WSServer.HandleConnection` | packages/backend/src/websocket/server.ts:106-127 | A new connection gets `client_{counter+1}` after the counter is bumped. Its identity is the verified token's user, and stays anonymous when the token is missing, empty or invalid. It is filed in `clients` and `sockets` under its id, it is the only client added to the accepted ones, and no room changes. The server's listeners get the `connection` notice. The client is sent exactly one `connect` frame with null data. The invariant is kept. |
| `Server.WSServer.Accept` | packages/backend/src/websocket/server.ts:107-140 | The new connection and its wrapper get a fresh id. Both tables, and the accepted clients, gain exactly that entry. |
| `Server.WSServer.Announce` | packages/backend/src/websocket/server.ts:162-166 | The server's listeners get the `connection` notice for the new socket, then the client is sent `{event: 'connect', data: null}` if its socket is open. |
| `Server.WSServer.NextId` | packages/backend/src/websocket/server.ts:108 | The pre-increment gives an id not used by any accepted client, connected client or room. |
| `Server.WSServer.Register` | packages/backend/src/websocket/server.ts:135-140 | `clients` and `sockets` each gain the new id, mapped to the connection and to its wrapper, and the accepted clients gain exactly the new one. The invariant is kept. |
| `Server.WSServer.Remember` | packages/backend/src/websocket/server.ts:135-136 | The new connection joins the accepted ones under its id, and the invariant is kept. |
| `Server.WSServer.HandleMessage` | packages/backend/src/websocket/server.ts:169-183 | A frame reaches the socket's handlers with its data spread into arguments. The reply callback is added exactly when the frame has an ackId, and it carries that ackId. Data that cannot be spread dispatches nothing. |
| `Server.WSServer.HandleDisconnect` | packages/backend/src/websocket/server.ts:153-193 | On the `close` event the socket is CLOSED, so nothing is sent to it afterwards. The closed client ends up in no room, with an empty room set, and absent from `clients` and `sockets`. The registry equals the old one with its id removed everywhere. Every other connection's rooms are unchanged, and the invariant is kept. |
| `Server.WSServer.LeaveAll` | packages/backend/src/websocket/server.ts:187-189 | Leaving each room of a snapshot of the client's rooms empties its room set and removes its id from the whole registry. |
| `Server.WSServer.SendAck` | packages/backend/src/websocket/server.ts:195-202 | The reply frame has the empty event, the response as data and the same ackId. It is sent only to an open socket. |
| `Server.WSServer.SendToClient` | packages/backend/src/websocket/server.ts:204-208 | A frame is transmitted exactly when the socket is open. Otherwise nothing happens. |
| `Server.WSServer.EmitToClient` | packages/backend/src/websocket/server.ts:210-213 | The client receives `{event, data}` with no ackId, if its socket is open. |
| `Server.WSServer.ToEmit` | packages/backend/src/websocket/server.ts:217-235 | `to(room).emit` (and `in`) sends the first argument to exactly the room's members that are still connected and open. Nobody else gets anything, and an absent room sends nothing. |
| `Server.WSServer.Emit` | packages/backend/src/websocket/server.ts:237-248 | `connection` goes only to the server's own listeners and sends nothing. Any other event goes, with its first argument, to every connected client whose socket is open. |
| `Server.WSServer.SendToEach` | packages/backend/src/websocket/server.ts:222-227 | The fan-out loop sends the frame once to each listed id that is a connected, open client, and to nobody else. |
| `Server.WSServer.JoinRoom` | packages/backend/src/websocket/server.ts:262-269 | The client is a member both ways: the room is in its set and its id is in the room's set. Joining a room it is already in changes nothing. The two-way invariant is kept. |
| `Server.WSServer.LeaveRoom` | packages/backend/src/websocket/server.ts:271-281 | The membership is removed on both sides, and a room left empty is deleted. Leaving a room the client is not in leaves the registry as it was. The invariant is kept. |
| `Server.WSServer.GetSocketsInRoom` | packages/backend/src/websocket/server.ts:289-296 | The result is exactly the wrappers of the room's members that still have one, each once. It is empty for an absent room. |
| `ClientTransport.BackoffDelay` | packages/mp/src/api/socket.ts:98 | The delay is the smaller of 1000·2^attempts and 30000. |
| `ClientTransport.BackoffMonotone` | packages/mp/src/api/socket.ts:97-98 | A later attempt never waits less, and no wait is over 30 seconds. |
| `ClientTransport.BackoffCapped` | packages/mp/src/api/socket.ts:98 | From the fifth attempt on, the wait is exactly 30 seconds. |
| `ClientTransport.CallsAppend` | packages/mp/src/api/socket.ts:147-148 | Calling the listeners of two lists one after the other is calling those of the joined list, which is how the loop builds the calls one listener at a time. |
| `ClientTransport.IndexOf` | packages/mp/src/api/socket.ts:195 | `indexOf` gives -1 exactly when the callback is absent. Otherwise it gives a position holding the callback with no earlier occurrence. |
| `ClientTransport.RemoveAt` | packages/mp/src/api/socket.ts:197 | `splice(i, 1)` removes one element: those before `i` keep their places and those after move up by one. |
| `ClientTransport.RemoveFirstOccurrence` | packages/mp/src/api/socket.ts:193-199 | Splicing at the callback's first index takes exactly one of its registrations out of the list and leaves every other registration in it (the order of the rest is stated by `RemoveAt`). |
| `ClientTransport.OffUndoesOn` | packages/mp/src/api/socket.ts:180-200 | `on` followed by `off` with the same new callback gives back the original listener list. |
| `ClientTransport.QueryToken` | packages/mp/src/api/socket.ts:39 | The URL's token parameter is empty exactly when there is no token or it is empty, and is the token otherwise. |
| `ClientTransport.SocketService.constructor` | packages/mp/src/api/socket.ts:19-21 | A new service connects at once with the stored token. It starts with empty queues, no listeners, no pending acks, ackId 0 and no reconnect timer. |
| `ClientTransport.SocketService.Connect` | packages/mp/src/api/socket.ts:36-52 | `connect()` stores the token and opens a task. The URL's token parameter is the token, or empty when there is none. |
| `ClientTransport.SocketService.ConnectFail` | packages/mp/src/api/socket.ts:46-49 | A failed connect applies the reconnect rule. |
| `ClientTransport.SocketService.HandleReconnect` | packages/mp/src/api/socket.ts:87-105 | Nothing happens at the attempt limit or while a timer is pending. Otherwise the attempt count goes up first, and a timer is set with delay min(1000·2^attempts, 30000). |
| `ClientTransport.SocketService.ReconnectTimerFires` | packages/mp/src/api/socket.ts:100-104 | The timer clears itself and connects again. |
| `ClientTransport.SocketService.OnOpen` | packages/mp/src/api/socket.ts:53-59 | On open the service is connected and the attempt count is 0. The `connect` listeners are called with undefined. The queue is transmitted in FIFO order and ends empty. |
| `ClientTransport.SocketService.OnClose` | packages/mp/src/api/socket.ts:70-75 | On close the service is disconnected, the `disconnect` listeners are called, and the reconnect rule applies. |
| `ClientTransport.SocketService.OnError` | packages/mp/src/api/socket.ts:77-81 | On error the service is disconnected and the `disconnect` listeners are called. No reconnect is scheduled. |
| `ClientTransport.SocketService.FlushMessageQueue` | packages/mp/src/api/socket.ts:124-129 | When connected, every queued frame is transmitted in order and the queue ends empty. When not connected, nothing changes. |
| `ClientTransport.SocketService.SendMessage` | packages/mp/src/api/socket.ts:131-143 | When connected with a task, the frame is transmitted and the queue is unchanged. Otherwise the frame is appended to the back of the queue. |
| `ClientTransport.SocketService.Emit` | packages/mp/src/api/socket.ts:145-157 | `connect`/`disconnect` call the local listeners with the first argument and never queue or send. Any other event goes out as `{event, data: args}` through `sendMessage`. |
| `ClientTransport.SocketService.EmitWithAck` | packages/mp/src/api/socket.ts:159-177 | The id is the old `ackId`, by post-increment, so it is fresh and has never been settled. It is registered and its timeout is armed. The frame carries it and is sent or queued. The invariant is kept. |
| `ClientTransport.SocketService.AckTimeout` | packages/mp/src/api/socket.ts:171-176 | The timeout settles the promise with null only if it is still waiting, and removes the entry. A promise settles at most once, which the kept invariant states. |
| `ClientTransport.SocketService.HandleMessage` | packages/mp/src/api/socket.ts:107-122 | A reply to a waiting ackId settles that promise once with the data, removes the entry, and calls no listener. Any other frame with a non-empty event calls that event's listeners with the data. A reply with an unknown id and an empty event changes nothing. This is the corrected routing; see Findings. |
| `ClientTransport.SocketService.HandleMessageAsWritten` | packages/mp/src/api/socket.ts:107-157 | As written: replies are handled as above. A `connect` or `disconnect` frame calls those listeners with its data and sends nothing. Any other non-empty event calls no listener and is sent back to the server as `{event, data: [data]}`. A non-reply with an empty event changes nothing. |
| `ClientTransport.SocketService.Notify` | packages/mp/src/api/socket.ts:147-148 | Each listener of the event is called once with the argument, in registration order. |
| `ClientTransport.SocketService.On` | packages/mp/src/api/socket.ts:180-185 | `on` appends the callback to the event's list, creating the list if needed. |
| `ClientTransport.SocketService.Off` | packages/mp/src/api/socket.ts:187-200 | Without a callback, the event's entry is removed. With one, its first registration is spliced out. With an absent callback or event, nothing changes. |
| `ClientTransport.SocketService.Disconnect` | packages/mp/src/api/socket.ts:202-218 | The pending timer is cleared, the task is dropped, and the service is not connected. |
| `ClientTransport.SocketService.UpdateAuthToken` | packages/mp/src/api/socket.ts:220-227 | The token is re-read and every waiting ack is dropped without settling. The service disconnects, and one more delayed connect is pending. |
| `ClientTransport.SocketService.AuthReconnectFires` | packages/mp/src/api/socket.ts:224-226 | The delayed connect after a token change runs `connect()` with the current token. |
| `ClientTransport.BackoffWithoutOpen` | packages/mp/src/api/socket.ts:87-105 | With connections that never open, the reconnect delays are 2000, 4000, 8000, 16000 and 30000 ms. After the fifth attempt no timer is started. |
| `ClientTransport.EchoCounterexample` | packages/mp/src/api/socket.ts:119-121 | A pushed `achievementUnlocked` frame reaches its listener in the corrected routing. As written, it reaches no listener and is sent back to the server. |
| `Server.NothingSentAfterClose` | packages/backend/src/websocket/server.ts:153-208 | After the connection closed, an ack reply and a wrapper `emit` send nothing: the client only ever received its `connect` frame. |
| `ClientTransport.DroppedAckNeverSettles` | packages/mp/src/api/socket.ts:171-176 | An ack still waiting when the token is updated is never settled, not even by its timeout. |
| `Validators.TrimStart` | packages/mp/src/utils/validators.ts:10 | The result is a suffix, only white space was removed, and it does not start with white space. |
| `Validators.TrimEnd` | packages/mp/src/utils/validators.ts:10 | The result is a prefix, only white space was removed, and it does not end with white space. |
| `Validators.Trim` | packages/mp/src/utils/validators.ts:10 | The trimmed text is empty exactly when the text is all white space. Otherwise it neither starts nor ends with white space. |
| `Validators.Required` | packages/mp/src/utils/validators.ts:9-14 | Valid exactly when some character is not white space. The message is present exactly when invalid, and it is the required-field message. |
| `Validators.Min8` | packages/mp/src/utils/validators.ts:17-22 | Valid exactly when the text has at least 8 characters, with its message when not. |
| `Validators.MatchesStarIff` | packages/mp/src/utils/validators.ts:26-35 | The anchored pattern `^[class]*$` matches exactly the texts made only of characters of the class. |
| `Validators.Login` | packages/mp/src/utils/validators.ts:25-31 | Valid exactly when the text is non-empty and uses only letters, digits, `_`, `.` and `-`, with its message when not. |
| `Validators.SpacesForbidden` | packages/mp/src/utils/validators.ts:34-39 | Valid exactly when the text is non-empty and contains no white space, with its message when not. |
| `Validators.LoginImpliesOthers` | packages/mp/src/utils/validators.ts:9-39 | A valid login name also passes `spacesForbidden` and `required`. |
| `Validators.FailingIndex` | packages/mp/src/utils/validators.ts:43-48 | The first rule the value fails: every earlier rule passes. It is -1 exactly when every rule passes. |
| `Validators.ValidateAll` | packages/mp/src/utils/validators.ts:42-50 | Returns the first failing rule's own result, or a pass. Valid exactly when every rule passes, so an empty rule list is valid. |
| `Validators.MessageOrDefault` | packages/mp/src/utils/validators.ts:73 | A missing or empty message becomes the default, and a non-empty one is kept. |
| `Validators.ValidateForm` | packages/mp/src/utils/validators.ts:64-79 | The form is valid exactly when no field fails, which is exactly when there are no errors. The error keys are exactly the failing fields. Each error is the first failing rule's message, or the default. |

## Left out

- WebSocket framing, the HTTP upgrade, the `/socket.io/` or `/ws` path check and `socket.destroy()` (server.ts:101-106, 129-131) are handled by the `ws` library. Only what the upgrade callback sets on the connection is modelled.
- `JSON.parse` and `JSON.stringify` are not modelled. A frame is its decoded `Envelope`. A frame that does not parse is only logged and dropped, on both sides.
- JWT validation is the parameter `verify` of `HandleConnection`. `None` stands for a token that throws, and the connection then stays anonymous. A `token` query parameter given more than once, which arrives as an array, is not modelled.
- The Node `EventEmitter` is reduced to per-event listener counts (`SocketWrapper`) and a log of the server's own events (`WSServer.localEvents`):
  - `WSServer.on`/`once` (server.ts:251-260) are not modelled; neither is what the handlers do.
  - Emitting `error` with no listener throws; inside the message handler this is caught, so, as in the model, nothing is dispatched.
- `getSocket` (server.ts:284-286) is a plain map lookup and is not modelled. The `data` and `handshake` fields are not modelled either.
- Listener callbacks are recorded, not run. A listener that calls back into the service, for example `emit` or `off` from inside a `forEach`, is not modelled.
- Server.WSServer.HandleMessage: the reply callback is recorded as the ackId it will answer. `SendAck` states what calling it sends.
- Uni-app's `connectSocket`, the storage read in `getAuthToken`, and logging are not modelled. The stored token is a parameter of `Connect`, `ReconnectTimerFires`, `AuthReconnectFires` and `UpdateAuthToken`.
- The client keeps one `hasSocket` flag, not the task objects. `connect()` replacing a task that is still open is not modelled. Neither are callbacks of an old task firing after a newer one was opened.
- ClientTransport.SocketService.OnOpen requires the service to hold a task. If an open callback fired after `disconnect()` had dropped the task, `flushMessageQueue` would move a queued frame from the front of the queue to the back forever; that case is not modelled.
- Server.WSServer.NextId: `clientIdCounter` is a JavaScript number. From 2^53 on, `++` no longer changes it and ids would repeat. The model's counter is unbounded, so `ClientIds.ClientIdInjective` and `Server.WSServer.FreshIdUnused` hold only for fewer than 2^53 connections.
- ClientTransport.SocketService.EmitWithAck: `ackId` is a JavaScript number with the same 2^53 limit. The freshness of each ackId, and so the rule that a promise settles at most once, is proved for an unbounded counter.
- A timer is identified by its delay. The source tests `if (this.reconnectTimer)`, which would treat a timer id of 0 as no timer; platforms hand out positive ids.
- Validators.Min8: characters are counted as Unicode code points. JavaScript counts UTF-16 code units, so a text with characters outside the Basic Multilingual Plane can pass `min8` in JavaScript with fewer than 8 characters.
- Validators.Required: only string values are modelled. JavaScript's `value &&` also guards against `undefined`.
- The rest of the repository is not part of this model: database, WeChat and HTTP code, the store and login glue, static data and type files.

## Findings

| source | as written | input that shows it | evidently intended | confidence | as-written member | corrected member |
|---|---|---|---|---|---|---|
| packages/mp/src/api/socket.ts:119-121 | A frame that is not an ack reply is passed to `this.emit(event, data)`. That method calls listeners only for `connect`/`disconnect` and sends every other event back to the server as `{event, data: [data]}`, so listeners registered with `on` for server-pushed events are never called. | A connected service with `on('achievementUnlocked', l)` receives `{event: 'achievementUnlocked', data: 'a1'}`: `l` is not called, and the frame `{event: 'achievementUnlocked', data: ['a1']}` is transmitted. | Call the event's listeners with the frame's data. | high; not executed | `ClientTransport.SocketService.HandleMessageAsWritten`, shown by `ClientTransport.EchoCounterexample` | `ClientTransport.SocketService.HandleMessage` |
