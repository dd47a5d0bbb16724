# wsjrpc in Dafny

wsjrpc routes JSON-RPC 2.0 messages over WebSockets between three kinds of program. An Android app (the `WsJRpc` object) exposes annotated methods to a developer tool and calls back into it. A Node.js hub (`main.ts`) keeps a directory of the connected clients and forwards calls and notifications between them. Both the hub and the command-line client build on one small JavaScript library (`utils.ts`). That library holds an outbound-call correlator (`jsonRpcInvoke`, `jsonRpcNotice`) and a per-connection dispatcher (`useJsonRpcForWs`).

This project models those three pieces sequentially, on decoded messages:

- `wrappers.dfy` and `json.dfy` hold `Option` and decoded JSON values.
- `android_peer.dfy` models the Android peer. The `Peer` class has as fields the object's counter, its callback, method and subscriber tables, and what it has sent or invoked.
- `js_wire.dfy` holds decoded payloads. It also holds a network that records every payload sent, and every message listener attached to or detached from a connection.
- `js_correlator.dfy` covers the module-wide `rpcId` counter and the life of each outbound call. A call settles on the first message heard on its connection, or on its ten-second timeout.
- `js_dispatch.dfy` covers batch dispatch. Each request gets at most one reply under its own id. Notifications are never answered. A synchronous throw stops the batch.
- `js_hub.dfy` covers the hub: its client records, its method and subscription tables (each a map and its key order), the forwarding stubs, `broadcast` and `list`.

Time, promises and sockets become explicit events:

- a message arriving on a connection;
- the clock reaching a millisecond;
- a deferred handler settling.

Handlers are opaque values that say only how a call ends. On the Android side an exception raised inside an exposed method reaches `invokeClient`'s catch wrapped by `Method.invoke` in an `InvocationTargetException`, whose own message is null. It is therefore reported as "Internal error", and only a failure of the reflective call itself reports its message.

## Model

| member | source | states |
|---|---|---|
| AndroidPeer.Stamp | android/app/src/main/java/zrz/world/wsjrpc/android/WsJRpc.kt:191-194 | the sent object carries `jsonrpc = "2.0"` and is otherwise the object given |
| AndroidPeer.InvokeReply | android/app/src/main/java/zrz/world/wsjrpc/android/WsJRpc.kt:113-138 | the reply to a request carries its id and exactly one of result and error. It has a result exactly when the method exists and returned: the value returned, or an explicit JSON null for a null. An unknown method gives code -32601 with "Method not found: name". An exception the method raises arrives wrapped without a message and gives -32603 with "Internal error". A failure of the reflective call itself gives -32603 with its message, or "Internal error" when it has none |
| AndroidPeer.ReplySettlement | android/app/src/main/java/zrz/world/wsjrpc/android/WsJRpc.kt:79-91 | a reply settles one callback exactly when its id has one: success when `result` is present, checked first, otherwise failure |
| AndroidPeer.SettledIds | android/app/src/main/java/zrz/world/wsjrpc/android/WsJRpc.kt:79-91 | over a stream of reply ids, the ids that fire are distinct and are exactly the pending ids some reply carries |
| AndroidPeer.ReplayReplies | android/app/src/main/java/zrz/world/wsjrpc/android/WsJRpc.kt:79-91 | defines the callback invocations of successive replies: each settles as `ReplySettlement` says, then its id is forgotten (the effect `HandleMsg` states for one reply) |
| AndroidPeer.ReplayFiresSettledIds | android/app/src/main/java/zrz/world/wsjrpc/android/WsJRpc.kt:79-91 | successive replies fire exactly the callbacks of the ids `SettledIds` names, in order, each at most once |
| AndroidPeer.RegisteredKeys | android/app/src/main/java/zrz/world/wsjrpc/android/WsJRpc.kt:165-178 | registering adds exactly the names of the entries to the table |
| AndroidPeer.RegisterKeepsExisting | android/app/src/main/java/zrz/world/wsjrpc/android/WsJRpc.kt:169-171 | a name already in the table keeps its handler |
| AndroidPeer.RegisterFirstWins | android/app/src/main/java/zrz/world/wsjrpc/android/WsJRpc.kt:169-175 | a new name gets the handler of its first entry; later duplicates are ignored |
| AndroidPeer.Registered | android/app/src/main/java/zrz/world/wsjrpc/android/WsJRpc.kt:165-178 | defines the table after registering the entries in order, a name already present keeping its handler; `RegisteredKeys`, `RegisterKeepsExisting` and `RegisterFirstWins` state its properties |
| AndroidPeer.RemoveFirst | android/app/src/main/java/zrz/world/wsjrpc/android/WsJRpc.kt:188 | defines the list after `remove`, which drops the first equal element; `RemoveFirstAt`, `RemoveAbsent` and `RemoveFirstMultiset` state its properties |
| AndroidPeer.RemoveFirstAt | android/app/src/main/java/zrz/world/wsjrpc/android/WsJRpc.kt:187-189 | unsubscribing removes the first occurrence of the subscriber and keeps the rest in order |
| AndroidPeer.RemoveAbsent | android/app/src/main/java/zrz/world/wsjrpc/android/WsJRpc.kt:187-189 | unsubscribing a subscriber that is not in the list changes nothing |
| AndroidPeer.RemoveFirstMultiset | android/app/src/main/java/zrz/world/wsjrpc/android/WsJRpc.kt:187-189 | unsubscribing takes exactly one copy of the subscriber out of the list |
| AndroidPeer.Deliveries | android/app/src/main/java/zrz/world/wsjrpc/android/WsJRpc.kt:98-102 | every subscriber is called once, in list order, with the event name and params |
| AndroidPeer.RegisterRequestsAt | android/app/src/main/java/zrz/world/wsjrpc/android/WsJRpc.kt:43-48 | the k-th announcement is a stamped `registerMethod{name}` request with id first+k |
| AndroidPeer.RegisterRequests | android/app/src/main/java/zrz/world/wsjrpc/android/WsJRpc.kt:43-48 | defines the announcements of `onOpen`, one per name in order with consecutive ids; `RegisterRequestsAt` states its elements |
| AndroidPeer.NoopRange | android/app/src/main/java/zrz/world/wsjrpc/android/WsJRpc.kt:43-48 | defines the callbacks the announcements store, the registration lambda under each of their ids; `NoopRangeContents` states its contents |
| AndroidPeer.NoopRangeContents | android/app/src/main/java/zrz/world/wsjrpc/android/WsJRpc.kt:43-48 | exactly the announcements' ids are stored, each holding the registration lambda |
| AndroidPeer.IterationOrder | android/app/src/main/java/zrz/world/wsjrpc/android/WsJRpc.kt:43 | the table is walked once per name, each name exactly once |
| AndroidPeer.Peer.constructor | android/app/src/main/java/zrz/world/wsjrpc/android/WsJRpc.kt:23-29 | no socket, counter 0, empty tables |
| AndroidPeer.Peer.SendToDevTools | android/app/src/main/java/zrz/world/wsjrpc/android/WsJRpc.kt:191-198 | with a socket, the stamped object is sent; without one, nothing is |
| AndroidPeer.Peer.InvokeDevTools | android/app/src/main/java/zrz/world/wsjrpc/android/WsJRpc.kt:144-152 | the id is the counter plus one, so ids start at 1 and increase. The id was not in use; the callback is stored under it; the request carries method, params and id |
| AndroidPeer.Peer.NoticeDevTools | android/app/src/main/java/zrz/world/wsjrpc/android/WsJRpc.kt:154-163 | sends one notification whose params are the arguments in order |
| AndroidPeer.Peer.OnOpen | android/app/src/main/java/zrz/world/wsjrpc/android/WsJRpc.kt:36-49 | `introduce{name:"android"}` is sent first, with the introduction lambda stored under its id. Then comes one `registerMethod` per table name, with consecutive ids, each with the registration lambda |
| AndroidPeer.Peer.AnnounceMethods | android/app/src/main/java/zrz/world/wsjrpc/android/WsJRpc.kt:43-48 | one `registerMethod` request per table name, in iteration order |
| AndroidPeer.Peer.InvokeClient | android/app/src/main/java/zrz/world/wsjrpc/android/WsJRpc.kt:113-139 | the step-by-step locals build exactly `InvokeReply`, which is sent |
| AndroidPeer.Peer.Publish | android/app/src/main/java/zrz/world/wsjrpc/android/WsJRpc.kt:97-105 | the event's subscribers are called in order; with none, nothing happens |
| AndroidPeer.Peer.HandleMsg | android/app/src/main/java/zrz/world/wsjrpc/android/WsJRpc.kt:70-108 | A result or error settles the id's callback, and the id is forgotten whether or not it had one. A named request gets exactly `InvokeReply`. A named notification reaches the subscribers. Anything else changes nothing. Each case leaves every other field unchanged |
| AndroidPeer.Peer.RegisterModule | android/app/src/main/java/zrz/world/wsjrpc/android/WsJRpc.kt:165-178 | the table becomes `Registered(old, entries)`: first registration of a name wins |
| AndroidPeer.Peer.SubscribeDevToolsNotification | android/app/src/main/java/zrz/world/wsjrpc/android/WsJRpc.kt:180-185 | appends to that event's list, creating it if absent; other events untouched |
| AndroidPeer.Peer.UnsubscribeDevToolsNotification | android/app/src/main/java/zrz/world/wsjrpc/android/WsJRpc.kt:187-189 | takes the subscriber's first occurrence out of that event's list; an absent event is a no-op |
| JsWire.Network.Send | js/src/utils.ts:26 | appends the send and leaves the listeners alone |
| JsWire.Network.AddListener | js/src/utils.ts:24 | appends the attach and adds the listener |
| JsWire.Network.RemoveListener | js/src/utils.ts:27-29 | appends the detach and removes the listener |
| JsCorrelator.Heard | js/src/utils.ts:10-23 | any message on the call's connection settles the call. A response with the call's id resolves with its result; an error with that id rejects with its error member; unparsable text rejects with the parse failure; anything else rejects as the unexpected response, with its text |
| JsCorrelator.Step | js/src/utils.ts:9-50 | defines one event's effect on a call: a message on its connection is `Heard`, a tick at or past the deadline is the timeout, a settled call stays; `SettledStays` and `QuietKeepsPending` state its properties |
| JsCorrelator.Run | js/src/utils.ts:9-50 | defines a call's state after a sequence of events; `FirstSettlementDecides` and `SilentCallTimesOut` state its properties |
| JsCorrelator.SettledStays | js/src/utils.ts:9-29 | a settled call keeps its outcome whatever events follow |
| JsCorrelator.FirstSettlementDecides | js/src/utils.ts:27-29 | the first event that settles a pending call decides its outcome |
| JsCorrelator.QuietKeepsPending | js/src/utils.ts:44-50 | messages on other connections, and ticks before the deadline, leave the call pending |
| JsCorrelator.SilentCallTimesOut | js/src/utils.ts:44-50 | a call that hears nothing is rejected with a timeout by the first tick at or after its deadline |
| JsCorrelator.CrossTalk | js/src/utils.ts:12-19 | when two calls are pending on one connection, the reply to one resolves it and rejects the other as unexpected |
| JsCorrelator.Notice | js/src/utils.ts:32-34 | sends one notification, without an id, and awaits nothing |
| JsCorrelator.Correlator.constructor | js/src/utils.ts:5 | the counter starts at 0; no call is pending |
| JsCorrelator.Correlator.Invoke | js/src/utils.ts:6-26 | the id is the counter's old value, consecutive and never used before. The listener is attached, then the request is sent. The deadline is now + 10000 ms |
| JsCorrelator.Correlator.OnEvent | js/src/utils.ts:9-29 | every call takes exactly one step on the event, in listener order, and no call is added or dropped. Exactly the calls it settles have their listener detached. Listeners stay those of the pending calls |
| JsDispatch.AbortIsFinal | js/src/utils.ts:98-136 | once a handler has thrown synchronously, the rest of the batch changes nothing |
| JsDispatch.RpcList | js/src/utils.ts:99-105 | defines the payloads of one message: none when it does not parse, a batch as it is, a lone payload as a batch of one; `OnMessage` walks it |
| JsDispatch.Handle | js/src/utils.ts:106-133 | defines one payload's effect on the walk; `RequestAnswered`, `ThrowStopsWalk`, `NotificationRuns`, `AnswersMatchRequests` and `AbortIsFinal` state its properties |
| JsDispatch.Dispatch | js/src/utils.ts:106-133 | defines the walk of a batch in order, stopping at a synchronous throw; the lemmas below state its properties |
| JsDispatch.NotFoundMessage | js/src/utils.ts:125 | the error text for an unknown method is "method: ", the name, " not found": the name can be read back from it |
| JsDispatch.DispatchExtends | js/src/utils.ts:106-133 | walking further never takes back a reply sent, a reply awaited or a handler run |
| JsDispatch.RequestAnswered | js/src/utils.ts:108-126 | a request the walk reaches is answered under its id: with the value its method returned, with the not-found error when the method is unknown, or later when its promise settles |
| JsDispatch.ThrowStopsWalk | js/src/utils.ts:106-136 | a request whose method throws synchronously gets no reply: its handler is recorded as run, the walk stops there, and nothing later in the batch has any effect |
| JsDispatch.NotificationRuns | js/src/utils.ts:127-132 | a notification the walk reaches runs its subscription and is never answered; a subscription that throws stops the walk; a notification without a subscription changes nothing |
| JsDispatch.AnswersMatchRequests | js/src/utils.ts:106-133 | every reply has a request's id, and each request is answered at most once, now or later. Without a throw, the ids answered are exactly the request ids |
| JsDispatch.NoRequestsNoReplies | js/src/utils.ts:127-132 | a batch of notifications and replies is never answered |
| JsDispatch.SettleReply | js/src/utils.ts:111-120 | a settled promise gives exactly one reply under the request's id: the value as the response when fulfilled; an `Error`'s message alone, without code or data; any other rejection value sent as it is |
| JsDispatch.Dispatcher.constructor | js/src/utils.ts:95 | the dispatcher serves the given tables on its connection |
| JsDispatch.Dispatcher.OnMessage | js/src/utils.ts:96-137 | the message is walked as a batch; a lone payload is a batch of one and unparsable text is an empty one. The sends, the handlers run and the awaited replies are exactly those of `Dispatch` |
| JsDispatch.Dispatcher.HandleNext | js/src/utils.ts:106-133 | one payload of the walk has exactly the effect `Handle` gives it |
| JsDispatch.Dispatcher.OnSettle | js/src/utils.ts:111-120 | an awaited request gets its one reply and is no longer awaited; any other settlement sends nothing |
| JsHub.Qualified | js/src/main.ts:46 | a qualified key contains a dot and starts with the client name and a dot |
| JsHub.WithPrefixMembers | js/src/main.ts:29 | a client's methods are exactly the keys with its name and a dot as prefix |
| JsHub.UndottedMembers | js/src/main.ts:35 | the server's methods are exactly the keys without a dot |
| JsHub.WithPrefix | js/src/main.ts:29 | defines the keys of a client entry, filtered by prefix in key order; `WithPrefixMembers` states which they are |
| JsHub.Undotted | js/src/main.ts:35 | defines the keys of the server entry, filtered in key order; `UndottedMembers` states which they are |
| JsHub.ClientEntry | js/src/main.ts:27-30 | an introduced client shows its record plus its prefixed methods. Any other client shows only the methods prefixed "." |
| JsHub.List | js/src/main.ts:26-38 | the server entry comes first: name and description "server", every subscription key, the undotted methods. Then comes one entry per live connection, in order |
| JsHub.BroadcastWalk | js/src/main.ts:80-90 | defines the walk of `broadcast` over the live connections, skipping the caller and stopping at the first without a record; `BroadcastTargets`, `BroadcastFails` and `BroadcastFailedIsFinal` state its properties |
| JsHub.BroadcastTargets | js/src/main.ts:80-90 | only live, subscribed clients other than the caller are notified; when the walk completes, all of them are |
| JsHub.BroadcastFails | js/src/main.ts:82-85 | the walk fails iff some live connection other than the caller has no record; the caller need not have one |
| JsHub.BroadcastFailedIsFinal | js/src/main.ts:80-90 | after the failure no further connection is visited; earlier notices stay |
| JsHub.StubSettlement | js/src/main.ts:48-55 | a forwarded result is passed on. A forwarded rejection passes on its message as an `Error`, never as a bare value: the remote error's message, "timeout", or the unexpected response's text |
| JsHub.RelayedErrorKeepsOnlyMessage | js/src/main.ts:48-55 | a structured error relayed through a stub reaches the caller with its message only; code and data are lost |
| JsHub.StubRelaysResult | js/src/main.ts:48-55 | the stub's forwarded call, once its owner answers it first, answers the stub's own request with the same result |
| JsHub.StubRelaysError | js/src/main.ts:48-55 | an error the owner answers the forwarded call with reaches the stub's caller with its message only |
| JsHub.StubRelaysTimeout | js/src/main.ts:48-55 | a forwarded call that hears nothing answers the stub's request with the "timeout" error |
| JsHub.Hub.constructor | js/src/main.ts:14-17 | no clients. The method keys are the five procedures in declaration order; the subscription table is empty |
| JsHub.Hub.Introduce | js/src/main.ts:18-25 | a missing or empty name throws "name is required" and changes nothing. Otherwise the caller's record is replaced by one with an empty list, which clears its subscriptions, and the result is true |
| JsHub.Hub.RegisterMethod | js/src/main.ts:40-57 | a caller without a record throws "introduce your self first" and no table changes. Otherwise the stub `<client>.<name>` forwarding to the caller is installed or overwritten, and the hub's procedures survive |
| JsHub.Hub.Subscribe | js/src/main.ts:58-77 | a caller without a record throws and nothing changes. Otherwise the name is added to its list only if absent, and the forward `<client>.<name>` is installed or overwritten |
| JsHub.Hub.Broadcast | js/src/main.ts:78-92 | sends exactly the notices of the walk, in order. It throws when the walk failed, returns true otherwise, and changes no hub table |
| JsHub.Hub.NotifyStub | js/src/main.ts:69-75 | the forward relays the notification to its owner under the bare name, with the same params |
| JsHub.Hub.InvokeStub | js/src/main.ts:48-55 | the stub relays the call to its owner under the bare name, with the same params, then waits for that call |
| JsHub.Hub.ServerMethodsAreNatives | js/src/main.ts:35 | the server entry's methods are exactly the hub's five procedures, whatever was registered |
| JsHub.NativesFirst | js/src/main.ts:17-93 | keys that start with the five procedures and have a dot in every later key filter down to the procedures |

## Left out

- Transport and logging are not modelled: the OkHttp connection, closing and failure callbacks, the `WebSocketServer` start-up and the console loggers. A send is an appended event; a log line is nothing.
- JSON text parsing and formatting belong to `org.json` and `json-rpc-protocol`, whose code is not part of this model. Messages are decoded values.
- The default error code of `JsonRpcError` is the library's own, so the JavaScript side's errors carry no code (`None`).
- `JSONObject(text)` throws on malformed text, and the Kotlin side reads no batches; both are left out.
- AndroidPeer.Peer.HandleMsg: requires that a message carrying `result` or `error` also has an id. Without one, the source's map lookup on a null key throws, and that is not modelled.
- AndroidPeer.Peer.RegisterModule: takes the (name, handler) pairs as input. The reflection and annotation scan that finds them is a foreign call.
- Callbacks, subscribers and handlers are opaque lambdas. They become handles, or functions that say only how a call ends; their invocations are recorded.
- Concurrency is not modelled; everything runs sequentially. This covers `ConcurrentHashMap`, `CopyOnWriteArrayList`, and JavaScript timers and promises as real time. Promise settlement and timer expiry are explicit events.
- AndroidPeer.Peer.InvokeDevTools: the id is an unbounded integer. The 32-bit wrap-around of `AtomicInteger` after 2^31 - 1 calls is not modelled.
- AndroidPeer.Peer.OnOpen: the table's iteration order is left unspecified. It is returned as a ghost sequence that is each name once.
- AndroidPeer.Peer.HandleMsg and AndroidPeer.Peer.Publish: callbacks and subscribers are modelled as never throwing. In the source, a callback that throws skips `callbackMap.remove(id)` and leaves `handleMsg`. A subscriber that throws stops the `forEach`, so later subscribers are not called.
- The hub does no clean-up when a connection closes, and neither does the model. `list` and `broadcast` take the live connections as an input sequence.
- JsDispatch.Dispatcher.OnMessage: handlers may change the hub's tables part-way through a batch, but the model uses the tables as they were when the message arrived. The hub's procedures are modelled one at a time.
- JsDispatch.Dispatch: keys inherited from `Object.prototype`, such as `toString`, are not modelled. In the source, a request for such a name finds a function.
- JsHub.Hub.Introduce: takes `name` already read from params, with `None` for absent. A non-string truthy name is not modelled. Missing params, which make the destructuring throw a `TypeError`, are not modelled either. The dispatcher drops that throw anyway.
- JsHub.Hub.RegisterMethod, JsHub.Hub.Subscribe and JsHub.Hub.Broadcast take `name` as a string. An absent name, which `join` turns into an empty segment, is not modelled.
- JsHub.StubSettlement: gives `None` where the message of the rejection comes from the JSON-RPC library. That happens for a parse failure, or for an error member that is not a structured error.
- JavaScript puts integer-like property keys before the others in `Object.keys`; the key sequences model insertion order only.
- `cli.ts` (the read-eval loop), `Api.kt` (vibrate, sms, greet) and `MainActivity.kt` are I/O and user interface.
- Three behaviours follow the code where JSON-RPC 2.0 or a reader might expect otherwise:
  - A hub procedure that throws synchronously (main.ts:20-22, 43-45, 61-63, 83-85) gets no reply at all. The dispatcher's catch only logs (utils.ts:134-136) and skips the rest of the batch, although section 5 of JSON-RPC 2.0 asks for a Response to every Request.
  - `registerMethod` on the hub overwrites an existing stub rather than refusing it (main.ts:48).
  - The JavaScript side attaches no numeric error codes of its own (utils.ts:116, 125).
