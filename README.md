# RscCache, modelled in Dafny

`RscCache` is the router's cache of React Server Component fetches. It maps a
stringified location to the thenable that resolves to the rendered element,
so that the same page is not fetched twice. A WebSocket to a local cache
observer mirrors its state. Each time a stored thenable resolves, the cache
publishes a `rsc-cache-set` snapshot of all entries. The observer can send
commands back: delete one key, clear everything, enable or disable the cache.
A disabled cache still stores entries, but every `set` first evicts all
existing entries. Outbound messages are sent when the socket is open. While
the socket is still connecting they are retried with a linear backoff of
300 ms + 100 ms × the retry counter, at most ten times. Otherwise they are
dropped with a console error.

The model has four modules:

- `Protocol` (protocol.dfy): the thenable, the snapshot, outbound
  messages and their ids, inbound messages and how the handler classifies
  them, and the console diagnostics.
- `SendPolicy` (send_policy.dfy): the socket's ready state, the four-way send
  decision `SendStep` and the retry schedule it produces.
- `Cache` (rsc_cache.dfy): the class `RscCache` with the fields the source
  updates in place (`cache`, `isEnabled`, `sendRetries`) and the socket's
  `readyState`. It also keeps what the host would otherwise hold: the sent
  messages (`outbox`), the console errors (`diagnostics`), the armed
  `setTimeout` timers (`timers`) and the pending `.then` callbacks
  (`listeners`). Each host event is a method: `Receive` (a message
  arrives), `FireTimer` (a retry timer fires), `RunListener` (a thenable's
  callback runs) and `SocketStateChanged`.
- `Scenarios` (scenarios.dfy): clients that drive a fresh cache through a
  whole sequence of events and state what the observer ends up receiving.

Three behaviours of the code are easy to misread:

- `sendRetries` is one field of the cache (line 11). It is shared by all
  messages and reset only by a successful send (line 103). Two messages
  retried at the same time share one budget (`Scenarios.SharedRetryBudget`).
  Once the counter reaches 10, every later send while the socket is not open
  is dropped at once as "exhausted", even on a closed socket.
- While `isEnabled` is false, every `set` clears the cache (lines 75-78), not
  only the first one after disabling (`Scenarios.DisabledEvictsOnEverySet`).
  `isEnabled` has no effect on publishing.
- The snapshot object is not filtered before it is serialised. In the
  payload object built at lines 41-51 and 87-95, a pending entry is present
  with no value (`Protocol.Snapshot`, `Scenarios.DeleteAbsentKey`). `outbox`
  holds these payload objects as they are before `JSON.stringify`, not the
  strings the socket carries.

## Model

| member | source | states |
|---|---|---|
| `Protocol.Snapshot` | packages/router/src/rsc/RscCache.ts:42-50 | reference definition of the `fullCache` object (its ensures restate the comprehension): exactly the cache's keys, each mapped to its thenable's current value, none while pending; the property about it is `Protocol.SnapshotValuesAreResolved` |
| `Protocol.SnapshotValuesAreResolved` | packages/router/src/rsc/RscCache.ts:43-48 | the snapshot keys that carry a value are exactly the keys whose thenable has resolved |
| `Protocol.MessageId` | packages/router/src/rsc/RscCache.ts:104 | an outbound id is `rsc-cache-` followed by the action, so it is `rsc-cache-update` for an update and `rsc-cache-set` otherwise |
| `Protocol.Classify` | packages/router/src/rsc/RscCache.ts:25-61 | text not starting with `{` is ignored; an object is a delete (carrying its key), clear, enable or disable exactly when its id is that command's id; any other id is unknown |
| `Protocol.ClassifyRecognises` | packages/router/src/rsc/RscCache.ts:31-61 | each of the four commands, sent as an object with its own id, is recognised as that command, and a delete keeps its key |
| `SendPolicy.SendStep` | packages/router/src/rsc/RscCache.ts:102-118 | send exactly when open; retry exactly when connecting with counter < 10, after 300 + 100 × counter ms (300 to 1200); exhausted exactly when not open and counter ≥ 10, whatever the state; closed exactly when neither open nor connecting and counter < 10 |
| `SendPolicy.RetryDelays` | packages/router/src/rsc/RscCache.ts:105-113 | a message that finds the counter at r, with the socket staying connecting, is retried 10 − r times (none from r ≥ 10) after 300 + 100 × (r + i) ms; a socket that is not connecting is never retried |
| `SendPolicy.FreshBudgetSchedule` | packages/router/src/rsc/RscCache.ts:105-115 | from a counter of 0 the delays are exactly 300, 400, …, 1200 ms, and the attempt after the tenth retry reports exhaustion |
| `Cache.StoreSet` | packages/router/src/rsc/RscCache.ts:75-80 | the key maps to the new value afterwards; when enabled, every other entry is kept unchanged and no other key is added or lost; when disabled, the key is the only entry left |
| `Cache.StoreDelete` | packages/router/src/rsc/RscCache.ts:32-39 | the key is removed and every other entry is kept unchanged; an absent or missing key leaves the map as it was |
| `Cache.RscCache.constructor` | packages/router/src/rsc/RscCache.ts:9-15 | a new cache is empty and enabled, its counter is 0, its socket is connecting, and nothing has been sent, reported, armed or registered |
| `Cache.RscCache.SocketStateChanged` | packages/router/src/rsc/RscCache.ts:15 | the socket created at line 15 starts connecting; its later transitions are host events: the ready state moves forward (connecting, open, closing, closed) and nothing else changes |
| `Cache.RscCache.Get` | packages/router/src/rsc/RscCache.ts:66-70 | returns the very thenable stored under the key, or none when the key is absent; changes nothing |
| `Cache.RscCache.Set` | packages/router/src/rsc/RscCache.ts:72-84 | the map becomes `StoreSet` of the old map under the enabled flag, one callback for the key and thenable is registered, and nothing is sent |
| `Cache.RscCache.RunListener` | packages/router/src/rsc/RscCache.ts:84-96 | once its thenable has resolved, the callback is consumed and one send attempt is made of a `set` message naming its key and carrying the snapshot of the cache as it is then |
| `Cache.RscCache.Receive` | packages/router/src/rsc/RscCache.ts:23-63 | delete: the map loses the key, a missing key is reported, and one update with the snapshot of the remaining entries is attempted; clear: the map is empty and one update with an empty snapshot is attempted; enable/disable: only the flag changes; non-objects and unknown ids change nothing |
| `Cache.RscCache.FireTimer` | packages/router/src/rsc/RscCache.ts:109-113 | the timer is disarmed, the shared counter goes up by one, and the same message is attempted again from that counter |
| `Cache.RscCache.Send` | packages/router/src/rsc/RscCache.ts:99-119 | the outcome is `SendStep` of the socket state and counter; only a send changes the counter (to 0) or the outbox (one `{id, payload}` message); a retry arms exactly one timer; a give-up adds exactly one report; every armed timer keeps a backoff delay |
| `Scenarios.SetThenResolve` | packages/router/src/rsc/RscCache.ts:66-96 | with the socket open, `get` after `set` returns the same thenable, and its resolution sends exactly one `rsc-cache-set` message with that key and a snapshot holding its value |
| `Scenarios.DeleteAbsentKey` | packages/router/src/rsc/RscCache.ts:31-51 | deleting an absent key does not fail: one key-not-found report, and exactly one `rsc-cache-update` with the unchanged snapshot |
| `Scenarios.ClearTwice` | packages/router/src/rsc/RscCache.ts:52-54 | two clears leave the cache empty, as one does, and send two updates with empty snapshots |
| `Scenarios.DisabledEvictsOnEverySet` | packages/router/src/rsc/RscCache.ts:72-80 | after disabling, each of two later sets evicts everything, so only the last key is left; disabling sends nothing |
| `Scenarios.RetryUntilExhausted` | packages/router/src/rsc/RscCache.ts:105-115 | a message published while the socket stays connecting waits 300, 400, …, 1200 ms, is never sent, and is dropped with one exhaustion report |
| `Scenarios.SharedRetryBudget` | packages/router/src/rsc/RscCache.ts:105-115 | two messages published while the socket stays connecting share one counter: eleven timer firings in all, nothing sent, two exhaustion reports |

## Left out

- The WebSocket's connection handshake, its `open` listener (lines 17-20, which only logs) and the real socket I/O (line 104) are not modelled. The socket's ready state is a field that starts connecting and that the host moves forward, and `socket.send` appends the payload object to `outbox`.
- `JSON.parse` and `JSON.stringify` (lines 26, 104) are not modelled. An inbound message carries its text together with the `id` and `key` members that parsing yields. Text that starts with `{` but is not valid JSON throws in the source before any state changes. That case is not modelled.
- Binary (non-text) message frames are not modelled. `data.startsWith` assumes text.
- `console.log` output is not modelled. The three `console.error` conditions (key not found, retries exhausted, connection closed) are recorded in `diagnostics`.
- Real time is not modelled. An armed timer keeps its delay, and `FireTimer` lets the host fire any armed timer. The host, not the model, makes shorter delays fire first.
- Promise scheduling and rejection are not modelled. `RunListener` runs a callback once its thenable has a value. A rejected thenable never runs its callback, which is the same as a thenable that never resolves.
- What React keeps in `.value` of a pending thenable is host-specific. The model records it as no value.
- `JSON.stringify` at line 104 drops object properties whose value is `undefined`. So when a pending thenable's `.value` is `undefined`, its key does not reach the observer, although it is present in the modelled payload. Whether a pending entry reaches the observer depends on what the host keeps in `.value`, which the model does not capture.
- The React elements themselves are opaque values of the type parameter `T`.
