# DClient real-time event layer, in Dafny

This project models the real-time part of the Dumb Messenger Java client:
- `DClient` keeps a bearer token, one WebSocket handle and two listener lists.
  The first is a map from a channel name to that channel's message callbacks. The second is a list of global event callbacks.
- The inner `MessengerWebSocketClient` dispatches every inbound frame to those callbacks.
- It also turns the socket's open, close and error notifications into events for the global callbacks.

Modules:

- `Models` (`models.dfy`): the wire records the layer reads. These are `WebSocketEvent`, `Message` with its attachments, and `AuthResponse`. A Java reference that may be `null` is an `Option`.
- `Urls` (`urls.dfy`): the two string expressions of the connection handle.
  - The constructor's base-URL normalisation.
  - The WebSocket URL `baseUrl.replace("http", "ws") + "api/events?token=" + authToken`. This includes Java's "every occurrence" semantics of `String.replace` and its `"null"` rendering of a null token.
- `Dispatch` (`dispatch.dfy`): the listener registry and the dispatch of one frame, as functions.
  - Callbacks are opaque ids.
  - A callback that throws is given by an input predicate `fails`.
  - The result of a dispatch is the trace of calls made, plus whether the run ended in an exception. The throwing call is the last entry of the trace.
  - `Deliver` is the `forEach` loop itself, a method proved equal to the specification function `RunAll`.
- `Client` (`client.dfy`): the two objects as classes with mutable fields.
  - `DClient` has the token, the current handle and the registry.
  - `MessengerSocket` has its fixed URL, a reference to its client, and three flags: `connect()` called, `close()` called, and the library's `isOpen()`.
  - The callbacks `OnOpen`, `OnMessage`, `OnClose` and `OnError` read the client's listener lists and are proved equal to the `Dispatch` functions.

The JSON codec (`readValue`, `convertValue`) is a parameter of `OnMessage`. It is a function returning `None` where Jackson throws or gives `null`.

Behaviour a reader might expect but `DClient.java` does not have (the model follows the code):
- There is no per-callback fault isolation. `onMessage` has one `try` around the whole dispatch, so the first callback that throws ends the frame, global listeners included. `onOpen`, `onClose` and `onError` have no `try` at all, so the exception leaves the callback (`escaped`).
- Undecodable `data` on a new-message frame goes straight to the `catch`, and so does a message whose channel is `null` (`ConcurrentHashMap.get(null)` throws). In both cases not even the global listeners see the frame.
- `String.replace` rewrites every `http` in the base URL, not only the scheme.
- `connectWebSocket` closes the old handle before `URI.create` checks the new URL. When that check throws, the old handle stays current, closed, and no new handle exists.

## Model

| member | source | states |
|---|---|---|
| Models.SyntheticEvent | src/main/java/com/dumbmessenger/Models.java:119-122 | definition, no contract: the two-argument constructor sets `type` and `message` only; its property is `Dispatch.SyntheticEventsReachOnlyGlobals` |
| Urls.NormalizeBaseUrl | src/main/java/com/dumbmessenger/DClient.java:34 | the stored base URL ends in `/`; it is the given URL, or that URL plus exactly one `/`; it is unchanged exactly when the given URL already ends in `/` |
| Urls.NormalizeIdempotent | src/main/java/com/dumbmessenger/DClient.java:34 | normalising twice gives the same URL as normalising once |
| Urls.WsScheme | src/main/java/com/dumbmessenger/DClient.java:335 | definition, no contract: `replace("http", "ws")`, scanning left to right; its properties are the `WsScheme…` lemmas below |
| Urls.WsUrl | src/main/java/com/dumbmessenger/DClient.java:335 | definition, no contract: the rewritten base URL, then `api/events?token=`, then the token's text; its properties are `WsUrlOfHttpBase`, `WsUrlExample` and `NullTokenSameUrl` |
| Urls.JavaText | src/main/java/com/dumbmessenger/DClient.java:335 | a possibly-null string renders as the text `null` exactly when it is null or is itself the text `null` |
| Urls.NullTokenSameUrl | src/main/java/com/dumbmessenger/DClient.java:335 | a missing token and the token `null` give the same WebSocket URL, and no other token does |
| Urls.WsSchemeRemovesHttp | src/main/java/com/dumbmessenger/DClient.java:335 | after the rewrite the URL contains no `http` anywhere |
| Urls.WsSchemeIdentity | src/main/java/com/dumbmessenger/DClient.java:335 | a URL without `http` is left unchanged |
| Urls.WsSchemeIdempotent | src/main/java/com/dumbmessenger/DClient.java:335 | rewriting an already rewritten URL changes nothing |
| Urls.WsSchemeOfHttp | src/main/java/com/dumbmessenger/DClient.java:335 | a leading `http://` becomes `ws://` and the rest is rewritten on its own |
| Urls.WsSchemeOfHttps | src/main/java/com/dumbmessenger/DClient.java:335 | a leading `https://` becomes `wss://` and the rest is rewritten on its own |
| Urls.WsUrlOfHttpBase | src/main/java/com/dumbmessenger/DClient.java:335 | for an `http`/`https` base whose remainder holds no `http`, the URL is `ws://` or `wss://`, then the remainder, then `api/events?token=`, then the token's text |
| Urls.WsUrlExample | src/main/java/com/dumbmessenger/DClient.java:335 | base `http://example.test/` with token `tok123` gives `ws://example.test/api/events?token=tok123`, and the `https` base gives `wss://…` |
| Urls.WsSchemeRewritesPath | src/main/java/com/dumbmessenger/DClient.java:335 | a later `http` in the path is rewritten too: `http://h/http/` becomes `ws://h/ws/` |
| Dispatch.FirstFault | src/main/java/com/dumbmessenger/DClient.java:368 | the index of the first throwing call: no call before it throws, and the call at it throws unless it is the end |
| Dispatch.FirstFaultUnique | src/main/java/com/dumbmessenger/DClient.java:368 | any index with those two properties is that first fault |
| Dispatch.RunAll | src/main/java/com/dumbmessenger/DClient.java:368 | a `forEach` with no handler runs a prefix of the calls in order; if it faulted, the last call run threw and none before it did; if it did not, every call ran and none threw |
| Dispatch.RunAllAppend | src/main/java/com/dumbmessenger/DClient.java:373-387 | two loops run back to back in one `try` are one loop over the joined calls: the second list runs only if the first did not throw |
| Dispatch.Deliver | src/main/java/com/dumbmessenger/DClient.java:368 | the loop's trace and fault flag are exactly `RunAll` of its calls |
| Dispatch.ChannelCalls | src/main/java/com/dumbmessenger/DClient.java:380 | definition, no contract: one call per channel listener handed the message, in list order |
| Dispatch.ChannelCallsAppend | src/main/java/com/dumbmessenger/DClient.java:380 | the calls for two joined lists are the calls for the first list followed by those for the second |
| Dispatch.GlobalCalls | src/main/java/com/dumbmessenger/DClient.java:384 | definition, no contract: one call per global listener handed the event, in list order |
| Dispatch.GlobalCallsAppend | src/main/java/com/dumbmessenger/DClient.java:384 | the calls for two joined global lists are the calls for the first followed by those for the second |
| Dispatch.Lookup | src/main/java/com/dumbmessenger/DClient.java:378-379 | definition, no contract: a channel's list, empty when the map has none |
| Dispatch.Subscribe | src/main/java/com/dumbmessenger/DClient.java:348 | the channel's list gains the listener at its end (an absent list counts as empty); every other channel's list is unchanged; the channel is now a key |
| Dispatch.SubscribeRunsNewListenerLast | src/main/java/com/dumbmessenger/DClient.java:347-353 | a listener just added to a channel, or to the global list, is called after every listener added before it |
| Dispatch.SubscribeAll | src/main/java/com/dumbmessenger/DClient.java:347-349 | definition, no contract: a sequence of `addMessageListener` calls applied first to last |
| Dispatch.ListenersFor | src/main/java/com/dumbmessenger/DClient.java:347-349 | definition, no contract: the listeners registered for a channel, in registration order, duplicates kept |
| Dispatch.ListenersForRegistered | src/main/java/com/dumbmessenger/DClient.java:347-349 | at most one listener per registration is found for a channel, and each comes from a registration for that channel |
| Dispatch.SubscribeAllKeys | src/main/java/com/dumbmessenger/DClient.java:348 | after any sequence of registrations the channels with a list are the old ones plus exactly the channels registered for |
| Dispatch.SubscribeAllLookup | src/main/java/com/dumbmessenger/DClient.java:347-349 | after any sequence of registrations, a channel's list is its old list followed by exactly the listeners registered for it, in order, with duplicates kept |
| Dispatch.IsNewMessage | src/main/java/com/dumbmessenger/DClient.java:376 | definition, no contract: `type` is `message` and `action` is `new` |
| Dispatch.Broadcast | src/main/java/com/dumbmessenger/DClient.java:368 | definition, no contract: `RunAll` of one event handed to every global listener |
| Dispatch.Dispatch | src/main/java/com/dumbmessenger/DClient.java:372-388 | definition, no contract: `onMessage` after decoding; its properties are the `Dispatch…` lemmas below and it is what `OnMessage` is proved equal to |
| Dispatch.DispatchNewMessage | src/main/java/com/dumbmessenger/DClient.java:372-388 | a new chat message runs the channel listeners and then the global listeners as one run: the first exception anywhere ends the frame |
| Dispatch.DispatchNewMessageNoFault | src/main/java/com/dumbmessenger/DClient.java:376-384 | when no callback throws, each listener of the channel runs once in order, then each global listener once in order, and the frame completes |
| Dispatch.DispatchNoOtherChannel | src/main/java/com/dumbmessenger/DClient.java:378-380 | a new chat message is handed only to listeners of its own channel, whatever throws |
| Dispatch.DispatchReadsOnlyOwnChannel | src/main/java/com/dumbmessenger/DClient.java:378-381 | registries that agree on the message's channel dispatch identically; a channel with no list is skipped and the frame goes to the global listeners |
| Dispatch.DispatchOtherEvent | src/main/java/com/dumbmessenger/DClient.java:376-384 | any other type or action reaches only the global listeners |
| Dispatch.DispatchDecodeFailures | src/main/java/com/dumbmessenger/DClient.java:374-385 | an undecodable frame, undecodable `data` or a null channel goes to the `catch` with no callback run |
| Dispatch.ChannelFaultSkipsGlobals | src/main/java/com/dumbmessenger/DClient.java:380-386 | when the k-th channel listener is the first to throw, exactly the first k+1 channel listeners have run, and no global listener |
| Dispatch.RegisteredListenersRunInOrder | src/main/java/com/dumbmessenger/DClient.java:372-384 | starting from an empty registry, a faultless new-message frame runs exactly the callbacks registered for its channel, in registration order, then the global listeners |
| Dispatch.OpenEvent | src/main/java/com/dumbmessenger/DClient.java:367 | definition, no contract: the `connected` event |
| Dispatch.CloseEvent | src/main/java/com/dumbmessenger/DClient.java:392 | definition, no contract: the `disconnected` event with the close reason |
| Dispatch.ErrorEvent | src/main/java/com/dumbmessenger/DClient.java:398 | definition, no contract: the `error` event with the exception's message |
| Dispatch.SyntheticEventsReachOnlyGlobals | src/main/java/com/dumbmessenger/Models.java:119-122 | an event the client builds carries its type and text, is never a new chat message, and so is dispatched to the global listeners only |
| Dispatch.LifecycleEventsShape | src/main/java/com/dumbmessenger/DClient.java:367-398 | the `connected`, `disconnected` and `error` events carry their fixed types and texts; none of them is a new chat message |
| Dispatch.BroadcastReachesGlobalsInOrder | src/main/java/com/dumbmessenger/DClient.java:366-400 | a lifecycle broadcast hands its event to a prefix of the global listeners in order, and to all of them when none throws |
| Client.TokenAfterLogin | src/main/java/com/dumbmessenger/DClient.java:84-86 | the token becomes the response's token when the login succeeded and carries one; otherwise it stays as it was |
| Client.TokenStaysSet | src/main/java/com/dumbmessenger/DClient.java:84-86 | once a token is set, no sequence of login responses clears it |
| Client.LoginAll | src/main/java/com/dumbmessenger/DClient.java:84-86 | after a sequence of logins the token is the initial one or the token of one of the successful responses |
| Client.MessengerSocket.constructor | src/main/java/com/dumbmessenger/DClient.java:361-363 | a new handle keeps its URL and its client, and is neither started, closed nor open |
| Client.MessengerSocket.Connect | src/main/java/com/dumbmessenger/DClient.java:337 | the handle is started |
| Client.MessengerSocket.Close | src/main/java/com/dumbmessenger/DClient.java:331-332 | the handle is closed and no longer reports itself open |
| Client.MessengerSocket.OnOpen | src/main/java/com/dumbmessenger/DClient.java:366-369 | the handle is open, and the calls made are the broadcast of the `connected` event to the global listeners |
| Client.MessengerSocket.OnMessage | src/main/java/com/dumbmessenger/DClient.java:372-388 | the calls made and the `catch` flag are exactly `Dispatch` of the decoded frame over the client's current lists |
| Client.MessengerSocket.OnClose | src/main/java/com/dumbmessenger/DClient.java:391-394 | the handle is not open, and the calls made are the broadcast of `WebSocket disconnected: ` plus the reason |
| Client.MessengerSocket.OnError | src/main/java/com/dumbmessenger/DClient.java:397-400 | the handle is not open, and the calls made are the broadcast of `WebSocket error: ` plus the error's message |
| Client.DClient.constructor | src/main/java/com/dumbmessenger/DClient.java:33-40 | the base URL is normalised; there is no token, no handle and no listener |
| Client.DClient.Login | src/main/java/com/dumbmessenger/DClient.java:82-88 | the response is returned, and the token becomes `TokenAfterLogin` of the old token and the response |
| Client.DClient.GetAuthToken | src/main/java/com/dumbmessenger/DClient.java:404-406 | returns the stored token |
| Client.DClient.SetAuthToken | src/main/java/com/dumbmessenger/DClient.java:408-410 | the stored token is the given one, and nothing else changes |
| Client.DClient.ConnectWebSocket | src/main/java/com/dumbmessenger/DClient.java:330-338 | the old handle, if any, is closed; it throws exactly when `URI.create` rejects `WsUrl` of the base URL and the token at call time, and then the old handle stays current; otherwise the current handle is a new, started one for that URL; the listeners are untouched |
| Client.DClient.DisconnectWebSocket | src/main/java/com/dumbmessenger/DClient.java:340-345 | the old handle, if any, is closed and there is no current handle; with no handle nothing changes |
| Client.DClient.IsWebSocketConnected | src/main/java/com/dumbmessenger/DClient.java:355-357 | true exactly when a handle exists and is open; false when there is no handle |
| Client.DClient.AddMessageListener | src/main/java/com/dumbmessenger/DClient.java:347-349 | a non-null channel's list gains the listener (`Subscribe`); a null channel registers nothing; the global list is untouched |
| Client.DClient.AddEventListener | src/main/java/com/dumbmessenger/DClient.java:351-353 | the global list gains the listener at its end; the channel lists are untouched |
| Client.ConnectTwice | src/main/java/com/dumbmessenger/DClient.java:330-338 | after two connects to an accepted URL the second handle is the only current one and the first has been closed |
| Client.RejectedReconnect | src/main/java/com/dumbmessenger/DClient.java:330-336 | a reconnect to a URL `URI.create` rejects throws, keeps the old handle current, and the client then reports itself not connected |
| Client.ExampleSession | src/main/java/com/dumbmessenger/DClient.java:330-338 | a client on `http://example.test/` with token `tok123` connects to `ws://example.test/api/events?token=tok123`; a later token change leaves that handle's URL as it was |
| Client.ConnectedLifecycle | src/main/java/com/dumbmessenger/DClient.java:355-357 | connected is false before any connect and right after connecting, true after `onOpen`, and false after `onClose` |

## Left out

- The REST operations other than the token update in `login`: registration, two-factor setup, channels, messages, email and password reset. They only build HTTP requests and call the JSON codec.
- `downloadFile`, which is asynchronous work that writes to the file system, and the upload methods, which build multipart bodies from files.
- TOTP generation and verification, which are calls into GoogleAuthenticator.
- The JSON codec itself. `readValue` and `convertValue` are inputs of `OnMessage` returning `Option`, and `login`'s decoded response is an input of `Login` (`None` when the request or decoding threw).
- The WebSocket library: handshake, threads, and when it calls the four callbacks. The callbacks are methods the caller invokes. `isOpen()` is a flag set by `Close` and the callbacks.
- Concurrency: a `ConcurrentHashMap` and plain `ArrayList`s are used for the lists from several threads. Each operation is modelled as atomic.
- `e.printStackTrace()` in the `catch` of `onMessage`; only the fact that the `catch` ran is recorded.
- Client.MessengerSocket.OnMessage: a callback that throws an `Error` (not an `Exception`) escapes `onMessage`; the model counts every throw as caught, since `fails` does not say which kind of throwable a callback raises.
- Client.MessengerSocket.OnMessage: a callback that registers a listener on the list being iterated makes `ArrayList.forEach` throw `ConcurrentModificationException` after it; the model's callbacks cannot change the registry, so this stop can only be expressed through `fails`.
- `URI.create` itself: whether a URL is accepted is the input `validUri` of `ConnectWebSocket`.
- A `null` base URL passed to the constructor: `endsWith` throws in Java, while the model's parameter is a string.
- Callback bodies: a listener is an id, and a `null` listener (which throws when called) is one that `fails` marks.
- Java's general `String.replace`: only the one call in the client, replacing `http` by `ws`, is modelled (`WsScheme`).
- Java's `long`/`int` widths of timestamps and sizes: they are unbounded integers here, since nothing in this layer reads them.
