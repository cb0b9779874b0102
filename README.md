# EasyRTC connector peer bookkeeping, in Dafny

The front end connects a Yjs replication engine to a WebRTC transport
(easyrtc) through an `EasyRTCConnector`. The connector's only logic of its
own is peer bookkeeping. It keeps a list `connected_peers` and two flags that
the engine owns, `is_initialized` and `is_bound_to_y`. From these it decides
when the engine receives `init`, `userJoined(peer, 'slave')`, `userLeft(peer)`
and `receiveMessage(peer, data)`. The project models two versions of this
connector, and the `Set` polyfill used by the test setup:

- `AngularYjs.EasyRtcConnector` is the deployed connector
  (frontend/js/angular-yjs.js):
  - the peer list is undefined until the transport's connection promise
    resolves;
  - at resolution, `init` is called and the list becomes the transport's
    snapshot of opened data channels;
  - open events are ignored until the engine is initialised.
- `App.EasyRtcConnector` is the older connector (frontend/js/app.js):
  - the list starts empty and every open event queues its peer;
  - every open event calls `init` again and then drains the queue.
- `Polyfills.SetInstance` is the array-backed `Set` (test/js/polyfills.js).
  Its `_set` array lives on the prototype, so instances share it until a
  `remove` gives an instance an array of its own.

Each connector is a class whose fields are the source's closure variables
and connector properties. It has one method per listener and per closure,
and keeps two real logs:
- `engineCalls`: every call made on the engine, oldest first;
- `transportCalls`: every `sendData` and `broadcastData` call, oldest first.

The drain done by `add_missing_peers` is specified by `Engine.JoinCalls`:
it pops from the end, so peers are announced last-pushed first. Every
method that drains states its new log in terms of `JoinCalls`.

Each connector's `Valid()` invariant ties the log to the peers it was given.
Every peer handed over (pushed, or taken from the snapshot) is in exactly
one of three places, counted with repetitions:
- announced by one `userJoined`;
- still waiting in the list;
- withdrawn by a close before it was announced.

The invariant also says that an initialised connector has an empty, defined
list.

Modules:
- `Wrappers`: `Option`, standing for a value that may be `undefined`.
- `JsArrays`: `indexOf`, `splice(i, 1)` and `filter(el !== x)` on sequences,
  with their lemmas.
- `Engine`: the engine calls, `JoinCalls`, `JoinedPeers` and the balance
  predicate `Balanced` both connectors keep.
- `Transport`: the `sendData` and `broadcastData` calls and their payloads.
- `AngularYjs`, `App`, `Polyfills`: the classes above, and scenario methods
  that run a sequence of events on a fresh object.

Foreign inputs become parameters:
- the local id (`webrtc.myEasyrtcid`);
- the transport's opened-channel snapshot (`getOpenedDataChannels()`);
- whether the engine's `init` sets `is_initialized` (`engineInitialisesOnInit`).

Attaching the engine is an explicit event, `EngineBound`, which sets
`is_bound_to_y`.

Both versions call `userLeft` whenever the engine is initialised, whether
or not the peer was listed (frontend/js/angular-yjs.js:55-57,
frontend/js/app.js:49-51); `AngularYjs.UnknownCloseScenario` exhibits this.
The deployed close listener runs `indexOf` on the list before anything else
(frontend/js/angular-yjs.js:51), so a close before the connection resolves,
or after it rejected, throws on the undefined list; the model returns that
exception as the `faulted` outcome of `OnDataChannelClose`, with no change of
state.

Two further behaviours of the code are modelled as written:
- Both versions assign the RESULT of `when_bound_to_y()` to `on_bound_to_y`,
  which is `undefined`, so `init` runs at once even when the engine is not
  yet bound (frontend/js/angular-yjs.js:31, frontend/js/app.js:32).
  `onBoundToY` becomes `None` on that branch.
- The deployed `send` hands the message to the transport without
  `JSON.stringify`, while `broadcast` stringifies it
  (frontend/js/angular-yjs.js:62, 65). app.js stringifies both. `Wire`
  records which form the transport got.

## Model

| member | source | states |
|---|---|---|
| JsArrays.IndexOf | frontend/js/angular-yjs.js:51 | `indexOf` gives -1 exactly when the element is absent; otherwise it gives an index holding the element with no earlier occurrence |
| JsArrays.Splice | frontend/js/angular-yjs.js:53 | `splice(i, 1)` shortens the list by one, keeps the entries before `i` and shifts the later ones down by one |
| JsArrays.RemoveFirst | frontend/js/angular-yjs.js:51-54 | the `indexOf` and `splice` pair of a close leaves a list without the element as it was, and shortens a list holding it by exactly one |
| JsArrays.RemoveFirstPosition | frontend/js/angular-yjs.js:51-54 | a close leaves a list without the peer unchanged; otherwise it cuts out exactly the first occurrence of the peer |
| JsArrays.RemoveFirstMultiset | frontend/js/angular-yjs.js:51-54 | the lookup and splice of a close take exactly one occurrence of a listed peer out of the list and nothing else |
| JsArrays.Filter | test/js/polyfills.js:14-16 | `filter(el !== element)` never lengthens the array |
| JsArrays.FilterCounts | test/js/polyfills.js:14-16 | after the filter the removed element occurs zero times, and every other element as often as before |
| JsArrays.FilterMembership | test/js/polyfills.js:14-16 | an element survives the filter if and only if it was present and is not the removed one |
| JsArrays.FilterAppend | test/js/polyfills.js:14-16 | the filter works piece by piece, so the kept elements stay in their original order |
| JsArrays.FilterAbsent | test/js/polyfills.js:14-16 | filtering out an absent element leaves the array as it was |
| JsArrays.FilterNoDuplicates | test/js/polyfills.js:14-16 | a duplicate-free array stays duplicate-free after `remove` |
| Engine.JoinCalls | frontend/js/angular-yjs.js:10-14 | the drain makes one `userJoined(peer, 'slave')` per list entry, and the k-th call announces the k-th entry counted from the end |
| Engine.JoinCallsAppend | frontend/js/angular-yjs.js:10-14 | draining `a + b` announces all of `b`, newest first, before any of `a` |
| Engine.JoinedPeersAppend | frontend/js/angular-yjs.js:12 | the peers announced by a log are those of its two halves together |
| Engine.JoinedPeersOfJoinCalls | frontend/js/angular-yjs.js:10-14 | the drain announces the multiset of the list exactly: no entry is dropped and none is announced twice |
| Engine.JoinCallsCount | frontend/js/angular-yjs.js:10-14 | for every peer, the number of `userJoined` calls for it equals its number of list entries |
| Engine.JoinedPeersOtherCall | frontend/js/angular-yjs.js:18-22 | logging `init`, `userLeft` or `receiveMessage` announces nobody |
| Engine.DrainConserves | frontend/js/angular-yjs.js:8-16 | a drain after any log moves exactly the list's multiset into the announced peers |
| Engine.JoinedPeersJoinCall | frontend/js/angular-yjs.js:12 | one `userJoined` call announces its peer once more |
| AngularYjs.ResolveKeepsBalance | frontend/js/angular-yjs.js:17-32 | the resolution hands the snapshot over and keeps every handed-over peer announced once, pending, or withdrawn |
| AngularYjs.EasyRtcConnector.constructor | frontend/js/angular-yjs.js:4-7 | a new connector has an undefined list, is neither initialised nor bound, and has made no calls |
| AngularYjs.EasyRtcConnector.EngineBound | frontend/js/angular-yjs.js:28 | attaching the engine sets `is_bound_to_y` and keeps the invariant |
| AngularYjs.EasyRtcConnector.PopPeer | frontend/js/angular-yjs.js:10 | `pop` gives undefined on an empty list; otherwise it gives the last entry and removes it |
| AngularYjs.EasyRtcConnector.AddMissingPeers | frontend/js/angular-yjs.js:8-16 | uninitialised: nothing changes; initialised: the list ends empty and the log grows by `JoinCalls` of the old list |
| AngularYjs.EasyRtcConnector.WhenBoundToY | frontend/js/angular-yjs.js:17-25 | one `init('slave', 'syncAll', local id)`; the list becomes the snapshot and is drained when initialised; every snapshot peer is handed over and accounted for |
| AngularYjs.EasyRtcConnector.OnConnectionResolved | frontend/js/angular-yjs.js:27-32 | on both branches exactly one `init` and the drain of the snapshot; `on_bound_to_y` becomes undefined on the unbound branch; the invariant holds afterwards |
| AngularYjs.EasyRtcConnector.OnConnectionRejected | frontend/js/angular-yjs.js:33-35 | a rejection leaves the list undefined, the engine uninitialised and the log unchanged |
| AngularYjs.EasyRtcConnector.OnDataChannelOpen | frontend/js/angular-yjs.js:37-42 | uninitialised: no change; initialised: exactly one `userJoined(peer, 'slave')` and the list stays empty |
| AngularYjs.EasyRtcConnector.NotifyIfInitialized | frontend/js/angular-yjs.js:45-47 | a non-join call is logged if and only if the engine is initialised |
| AngularYjs.EasyRtcConnector.OnPeerMessage | frontend/js/angular-yjs.js:44-48 | `receiveMessage(sender, data)` is logged if and only if the engine is initialised |
| AngularYjs.EasyRtcConnector.RemoveListed | frontend/js/angular-yjs.js:51-54 | the list loses the first occurrence of the peer, or stays as it was when the peer is absent; the invariant holds |
| AngularYjs.EasyRtcConnector.OnDataChannelClose | frontend/js/angular-yjs.js:50-58 | on an undefined list the `indexOf` throws: `faulted`, and nothing changes; otherwise first-occurrence removal, then `userLeft(peer)` if and only if initialised, listed or not |
| AngularYjs.EasyRtcConnector.Send | frontend/js/angular-yjs.js:61-63 | one `sendData(user, 'yjs', message)`, with the message not stringified |
| AngularYjs.EasyRtcConnector.Broadcast | frontend/js/angular-yjs.js:64-66 | one `broadcastData('yjs', JSON.stringify(message))` |
| AngularYjs.EarlyPeerScenario | frontend/js/angular-yjs.js:17-25 | a channel opened before resolution is ignored by the open listener, yet announced exactly once from the snapshot |
| AngularYjs.RejectedScenario | frontend/js/angular-yjs.js:33-58 | after a rejection the list stays undefined, no open or message event reaches the engine, and a close throws |
| AngularYjs.UnboundResolutionScenario | frontend/js/angular-yjs.js:30-31 | resolving before the engine is bound still calls `init` and leaves `on_bound_to_y` undefined |
| AngularYjs.UnknownCloseScenario | frontend/js/angular-yjs.js:50-58 | the close of a never-listed peer does not throw once the list is defined, and still calls `userLeft` on an initialised engine |
| App.OpenKeepsBalance | frontend/js/app.js:26-35 | the open listener keeps every handed-over peer announced once, queued, or withdrawn |
| App.EasyRtcConnector.constructor | frontend/js/app.js:4-7 | the queue starts empty; the new connector is neither initialised nor bound and has made no calls |
| App.EasyRtcConnector.EngineBound | frontend/js/app.js:29 | attaching the engine sets `is_bound_to_y` and keeps the invariant |
| App.EasyRtcConnector.PopPeer | frontend/js/app.js:10 | `pop` gives undefined on an empty queue; otherwise it gives the last entry and removes it |
| App.EasyRtcConnector.AddMissingPeers | frontend/js/app.js:8-16 | uninitialised: nothing changes; initialised: the queue ends empty and the log grows by `JoinCalls` of the old queue |
| App.EasyRtcConnector.WhenBoundToY | frontend/js/app.js:17-24 | one `init('slave', 'syncAll', local id)`, then the drain of the current queue when initialised |
| App.EasyRtcConnector.OpenSteps | frontend/js/app.js:26-35 | push first, one `init` through either branch, a drain of the queue including the new peer, and a no-op second drain |
| App.EasyRtcConnector.OnDataChannelOpen | frontend/js/app.js:26-35 | the open listener's new state as in `OpenSteps`, with the connector's invariant kept |
| App.EasyRtcConnector.NotifyIfInitialized | frontend/js/app.js:38-40 | a non-join call is logged if and only if the engine is initialised |
| App.EasyRtcConnector.OnPeerMessage | frontend/js/app.js:37-41 | `receiveMessage(sender, data)` is logged if and only if the engine is initialised |
| App.EasyRtcConnector.RemoveListed | frontend/js/app.js:44-48 | the queue loses the first occurrence of the peer, or stays as it was; this cannot fault, since the queue is always defined |
| App.EasyRtcConnector.OnDataChannelClose | frontend/js/app.js:43-52 | first-occurrence removal, then `userLeft(peer)` if and only if initialised |
| App.EasyRtcConnector.Send | frontend/js/app.js:55-57 | one `sendData(user, 'yjs', JSON.stringify(message))` |
| App.EasyRtcConnector.Broadcast | frontend/js/app.js:58-60 | one `broadcastData('yjs', JSON.stringify(message))` |
| App.OpenCloseScenario | frontend/js/app.js:26-52 | a peer opened and closed while uninitialised is never announced; each open calls `init` again |
| App.QueueScenario | frontend/js/app.js:8-16 | peers queued before initialisation are announced, newest first, by the first initialised open |
| Polyfills.JsArray.constructor | test/js/polyfills.js:5 | a JavaScript array object holding the given elements, one mutable list shared by every reference to it |
| Polyfills.SetPrototype.constructor | test/js/polyfills.js:5 | the prototype holds one fresh, empty `_set` array |
| Polyfills.SetInstance.constructor | test/js/polyfills.js:4 | a new set has no `_set` of its own and looks it up on the prototype |
| Polyfills.SetInstance.Has | test/js/polyfills.js:19-21 | `has(e)` holds if and only if `e` occurs in `this._set`, the array found by looking `_set` up on the instance and then on its prototype (`Backing`) |
| Polyfills.SetInstance.Add | test/js/polyfills.js:7-11 | an absent element is appended to the array `this._set` denotes; a present one changes nothing; afterwards `has(e)` holds, no other membership changes, and no duplicate appears |
| Polyfills.SetInstance.Remove | test/js/polyfills.js:13-17 | a fresh own array holds the filtered elements in order; afterwards `has(e)` fails, no other membership changes, and the array read from is untouched |
| Polyfills.AddSeenBySibling | test/js/polyfills.js:5-11 | for any two instances on one prototype that have not called `remove`, an add through one is seen by `has` on the other and both hold the same elements |
| Polyfills.SharedBackingScenario | test/js/polyfills.js:5-21 | an add through one instance is seen by `has` on another; after a `remove` the remover is detached, and later adds through the other no longer reach it |

## Left out

- JSON serialisation: `JSON.parse` of incoming data and `JSON.stringify` of outgoing data are not modelled. Messages are opaque strings; `Wire` records only whether `stringify` was applied.
- The webrtc transport and the replication engine are foreign code. The connector's calls on the engine and its `sendData`/`broadcastData` calls are logged, and the transport's answers are parameters: the local id, the opened-channel snapshot, and whether `init` sets `is_initialized`. The engine can only set `is_initialized` through `init` in this model; a free-standing engine event setting it is not modelled.
- Promise asynchrony: the connection promise becomes a resolved or a rejected event, at most one of them.
- The connector's other calls on the transport are not logged: `webrtc.connection()` (frontend/js/angular-yjs.js:27), the listener registrations (frontend/js/angular-yjs.js:37, 44, 50; frontend/js/app.js:26, 37, 43), and the queries `myEasyrtcid()` and `getOpenedDataChannels()` (frontend/js/angular-yjs.js:21, 23), whose answers are parameters instead. The registrations become the listener methods themselves.
- `console.log` and `$log`: no effect on state.
- The Angular module and service registration, and `new window.Y(connector)`: framework glue.
- `init`, `userJoined`, `userLeft` and `receiveMessage` are not defined in the connector's own code: its prototype has only `send` and `broadcast` (frontend/js/angular-yjs.js:61-66), and the engine supplies the rest when it is built with `new window.Y(connector)` (frontend/js/angular-yjs.js:71). The model assumes these calls succeed whenever the connector makes them, including the `init` on the not-yet-bound branch (frontend/js/angular-yjs.js:31, frontend/js/app.js:32), and logs them.
- AngularYjs.EasyRtcConnector.WhenBoundToY: the array `getOpenedDataChannels()` returns is popped in place by the drain (frontend/js/angular-yjs.js:23-24 with 10-13); the model takes it as a value, so it assumes the transport keeps no alias to that array and does not capture the transport seeing it emptied.
- The local id: app.js passes `webrtc.myEasyrtcid` itself as `user_id`, without calling it (frontend/js/app.js:21), so the engine receives the function, not an id. The model's `Init` carries a `PeerId` in both versions and cannot express that difference.
- The engine running `on_bound_to_y` when it attaches: the stored value is always `undefined`, so there is nothing to run.
- `msgType`: the peer listener ignores it, and the model keeps it as an unused parameter.
- Identity in JavaScript: `indexOf`, `!==` and `pop() !== undefined` compare with JavaScript strict equality; the model uses Dafny equality. `NaN` entries and `undefined` pushed as a peer id are not modelled.
- The polyfill's installation guard on `window.Set`: environment detection.
- The `Set` polyfill's prototype is modelled by its `_set` property only. Other properties and a `Set.prototype._set` reassigned from outside are not modelled.
- backend/index.js, the build files and the test configuration are not part of this model: they hold no logic.
