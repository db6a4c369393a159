# httpOverWebSocket transport core, in Dafny

A model of the request-correlation core of `angularjs-websocket-transport`.
The library runs `$http`-style requests over one Primus WebSocket
connection and matches each reply to its request by a tagged id.

The model covers these parts of the library:

- **The transport state.** The `Transport` superclass keeps a pending-request
  table keyed by request id. Each entry holds the request config and an
  optional `timeoutAfter` deadline. Next to the table sits a per-URL response
  cache. Each cache key holds either the promise of a GET in flight or a
  snapshot of the response it produced.
- **`send`.** It allocates an id and computes the deadline. A numeric
  per-request `timeout` overrides the configured default. A GET with a truthy
  `cache` property goes through the cache single-flight: a miss transmits and
  caches the promise, an in-flight promise is returned as it is, and a
  snapshot is replayed under a new id without transmitting.
- **Resolution.** `resolveResponse` removes exactly one entry. It resolves a
  2xx status and rejects every other status. `createHttpResponse` builds the
  envelope. The cache listeners replace an in-flight promise with a snapshot
  on success and remove the URL on failure.
- **The timeout sweep.** `runTimeoutCheck` rejects, with status 0, every
  entry whose deadline is set and strictly in the past.
- **`PrimusTransport`.** `transmit` writes a copy of the config without
  `cache` and tagged with `_howsId`. The `data` listener ignores traffic that
  is not a tagged object. It reads the `_howsStatus` tag (default 200), strips
  both tags and resolves the matching request.
- **The providers.** The transport provider's `$get` accepts only the kind
  `"primus"`. The `httpOverWebSocket` service checks exclude patterns before
  include patterns when routing.

The state is an immutable value (`Transports.Transport`). Every operation is a
pure step from one state to the next. A promise is represented by the id of
the request whose deferred backs it. What happens to promises is recorded in
a settlement log `(id, Resolved | Rejected, response)`, and what goes onto
the socket is recorded in a write log. The current time and each newly
generated id are parameters. A new id must be fresh, meaning the state has
never seen it.

`Transports.Valid` is the invariant every operation keeps. It states:

- every cache listener belongs to a pending request;
- every in-flight promise in a cache belongs to a pending request that
  carries its listener, so no key keeps a stale promise;
- only successful responses are cached;
- no id is ever settled twice;
- a settlement resolves exactly when its status is 2xx.

Files: `js.dfy` (JavaScript values), `requests.dfy` (config and envelope),
`wire.dfy` (socket message format), `transport.dfy` (the Transport
superclass), `primus.dfy` (inbound listener), `service.dfy` (providers and
routing), `scenarios.dfy` (properties spanning several operations).

## Model

| member | source | states |
|---|---|---|
| Transports.NewTransport | src/httpOverWebSocket.js:87-106 | A new transport has an empty table and cache. A missing timeout becomes 0. A missing or zero check interval becomes 100. The state satisfies the invariant. |
| Transports.CreateHttpResponse | src/httpOverWebSocket.js:279-291 | The envelope carries the id, the data, empty headers and the config the request was stored with. A status that is not a number becomes 200. |
| Transports.CreateHttpTimeoutResponse | src/httpOverWebSocket.js:302-304 | A timeout envelope has status 0, which is never a success status. |
| Transports.Classify | src/httpOverWebSocket.js:261-263 | A status resolves if and only if 200 <= status < 300. |
| Transports.UpdateCacheOnSettlement | src/httpOverWebSocket.js:169-177 | When a cached request settles, success stores a snapshot under its key and failure removes the key. The listener is consumed and nothing else changes. |
| Transports.ResolveResponse | src/httpOverWebSocket.js:325-335 | Removes exactly the response's id from the table and appends one settlement. The settlement is Resolved if and only if the status is 2xx. An id that is not pending is an error that changes nothing. The request's cache listener runs: a hooked 2xx response becomes the snapshot under its key, any other hooked response removes the key, and an unhooked request leaves the cache alone. The listener is consumed and the settings are unchanged. |
| Transports.ResolvePendingPreservesValid | src/httpOverWebSocket.js:325-335 | Resolving keeps the invariant. The settled id can never be settled again, and no cache key keeps its promise. |
| Transports.ResolveTwiceFails | src/httpOverWebSocket.js:328-329 | A second resolution of the same id is refused. |
| Transports.Deadline | src/httpOverWebSocket.js:136-143 | A numeric per-request timeout overrides the configured one. `timeoutAfter = now + t` is set only when t > 0. |
| Transports.SendUncached | src/httpOverWebSocket.js:219-224 | Adds exactly one fresh entry holding the config and writes once with that id. The cache, the listeners, the settlement log and the settings are untouched. |
| Transports.SendCacheMiss | src/httpOverWebSocket.js:190-199 | On a cache miss: one new entry and one write, the key holds the new in-flight promise, and a listener is attached. The settlement log and the settings are untouched. |
| Transports.SendCacheHit | src/httpOverWebSocket.js:209-216 | On a snapshot hit, the new id is settled at once with the snapshot re-tagged with that id. Nothing is written, and the table and cache end as they began. |
| Transports.Send | src/httpOverWebSocket.js:181-224 | Dispatches to the four cases. An in-flight key returns the cached promise and leaves the state unchanged. A send writes at most one object, only appends, and never changes the settings. |
| Transports.SendPreservesValid | src/httpOverWebSocket.js:181-216 | Sending keeps the invariant. A replayed snapshot always resolves, because only successes are cached. |
| Transports.SweepStep | src/httpOverWebSocket.js:342-345 | Rejecting one more expired entry keeps the invariant and the sweep's bookkeeping. |
| Transports.RunTimeoutCheck | src/httpOverWebSocket.js:340-347 | Settles exactly the entries whose deadline is set, non-zero and < now. Each is rejected with the status-0 envelope and settled once. Every other entry stays pending and unchanged. Nothing is written. The cache drops exactly the keys of timed-out in-flight GETs. |
| Wire.Outbound | src/httpOverWebSocket.js:406-417 | The written object carries `_howsId` = id and has no `cache` property. It keeps method, url, timeout and every other property, and adds nothing else. |
| Wire.TaggedId | src/httpOverWebSocket.js:381-387 | A message counts as a reply if and only if it is an object whose `_howsId` is truthy. |
| Wire.OutboundIdRoundTrip | src/httpOverWebSocket.js:387 | The id read back from a written request is the id it was written with. |
| Wire.Untagged | src/httpOverWebSocket.js:389-390 | Both reserved tags are removed from the reply payload and every other property is kept. |
| Primus.OnDataAsWritten | src/httpOverWebSocket.js:379-399 | The listener as written: a `null` message throws. Any other message is handled as `Primus.OnData` handles it. |
| Primus.OnData | src/httpOverWebSocket.js:379-399 | Untagged traffic is ignored. A reply for an id that is not pending throws and settles nothing. A reply for a pending id removes exactly that entry and settles it with the untagged data, status `_howsStatus` or 200, empty headers and the original config. The cache listener of that request then stores the response under its key on a 2xx status and removes the key otherwise. |
| Primus.OnDataPreservesValid | src/httpOverWebSocket.js:392-398 | Handling a message keeps the invariant. |
| Primus.NullMessageThrows | src/httpOverWebSocket.js:381 | `null` carries no id tag, yet the as-written listener throws on it. The corrected listener ignores it. |
| Service.GetTransport | src/httpOverWebSocket.js:464-475 | Returns a transport if and only if the kind is "primus". Any other kind is an InvalidTransport error. |
| Service.DefaultProviderTransport | src/httpOverWebSocket.js:430-447 | The unconfigured provider builds a valid, empty transport with timeout 10000 and check interval 100. |
| Service.RouteRequest | src/httpOverWebSocket.js:524-541 | A request goes to the transport if and only if no exclude pattern matches and some include pattern matches. Every other request goes to `$http`. |
| Service.HttpOverWebSocket | src/httpOverWebSocket.js:524-541 | The service calls the transport's send exactly when routing says so. Otherwise it hands the unchanged config to `$http`. |
| Service.RoutingExample | test/httpOverWebSocket.test.js:100-145 | With no excludes and the include pattern `/^\/overWebSocket/`, `/overWebSocket` goes to the transport and `/notOverWebSocket` goes to `$http`. |
| Scenarios.EchoSettlesSameRequest | test/primusTransport.test.js:114-179 | Send, then echo the id back: the same request is settled once, with the untagged payload, empty headers and the original config, and the table returns to its state before the send. |
| Scenarios.SendKeepsRestFresh | src/httpOverWebSocket.js:129-134 | A send consumes only its own id. |
| Scenarios.InFlightAbsorbs | src/httpOverWebSocket.js:203-205 | While a GET is in flight, any number of further GETs of its URL get its promise and change nothing. |
| Scenarios.SingleFlight | test/transport.test.js:229-255 | N cacheable GETs of an uncached URL cause exactly one write and one pending entry, and every caller gets the same promise. |
| Scenarios.FailedGetIsRetried | src/httpOverWebSocket.js:172-176 | After a cached GET fails, its URL is uncached and the next GET is transmitted again. |
| Scenarios.SuccessfulGetIsReplayed | src/httpOverWebSocket.js:170-171 | After a cached GET succeeds, its URL holds the response. The next GET is resolved from it under its new id, with no write and no change to the table. |
| Scenarios.LateReplyIsRefused | src/httpOverWebSocket.js:392-395 | A reply for an already settled id, whether settled by a reply or by the sweep, throws and settles nothing again. |
| Scenarios.TimeoutScenario | test/transport.test.js:142-163 | Of three entries with `timeoutAfter` 0, now + 1000 and now − 1000, a sweep at now rejects only the third, with the status-0 envelope. The other two stay pending exactly as they were. |
| Scenarios.SendThenSweep | src/httpOverWebSocket.js:340-347 | With a 50 ms timeout, a request survives a sweep at +50 ms, because the deadline must be strictly past. A sweep at +60 ms rejects it with the status-0 envelope. |
| Js.NumericKeysDistinct | src/httpOverWebSocket.js:387-392 | Distinct numeric ids are coerced to distinct property keys, so one numeric `_howsId` never finds the entry of another. |

## Left out

- `$q` deferreds and the `.success`/`.error` decorations of the promise: a promise is the id of its request plus the settlement log. AngularJS runs `then` callbacks at the next digest. The model applies the cache listeners in the same step as the settlement.
- `$interval` scheduling of the sweep: `RunTimeoutCheck` is a step the environment takes. `timeoutCheckInterval` is recorded in the settings and drives nothing.
- `generateUuid`: it is random. The id is a parameter, required to be non-empty and unseen.
- `Date.now()`: the time is a parameter.
- Creating the Primus connection (an existing instance or `primus(url, options)`) and registering the listener: network I/O. `primus.write` appends to the write log.
- The base `Transport.prototype.transmit`, which throws "Not implemented": `$get` only ever builds a `PrimusTransport`, so the model always uses its `transmit`.
- `angular.copy`: value semantics make every copy implicit, and the caller's config cannot be modified.
- Shared objects: the source keeps the caller's config object itself in the pending table and hands that same object back as the response's `config`, so a caller that changes its config after `send` sees the change in the settled response. The model keeps the config as it was at send time. The listener also deletes both tags from the inbound object in place, even on the path that throws, so other `data` listeners on a shared Primus instance see the stripped object. `Wire.Untagged` returns a new map and leaves the message as it was.
- Regular expressions in routing: a pattern is a literal that either starts the URL (`/^.../`) or occurs in it.
- The providers' `configure` merges and the DI wiring. Also left out are the shorthand methods (`get`, `post`, ...), which only fill in method, url and data before calling the service.
- Request configs without a `method` or `url` property are not modelled. A `RequestConfig` always carries both, so the written object always has both keys, while the source's copy carries only the properties the caller set.
- JavaScript numbers are modelled as integers. NaN, infinities and fractional timeouts and statuses are not modelled.
- Js.NumberKey: models the key of a number only for magnitudes below 10^21, where JavaScript prints plain decimal digits; from 10^21 up JavaScript uses exponent form (`"1e+21"`), which the model does not produce. Integers beyond 2^53, which are not exactly representable as JavaScript numbers, are not modelled either.
- A non-numeric `timeout` property: `send` ignores it, as in the source, but the model also leaves it out of the wire object, where the source would transmit it.
- The `cache` property: every truthy non-object value selects the default cache. The model does not cover a plain object that is not a cache instance, which makes the source throw. It also does not cover caches shared with other transports or with `$http`, or entries that other code puts into a supplied cache.
- A non-string `_howsId` is coerced to a property key to find the pending entry. The model's envelope carries that key where the source carries the raw value. Both are the same for string ids.
- Exceptions thrown by the listener or by `resolveResponse` are returned as results instead of propagating to the caller.
- Transports.RunTimeoutCheck: the expired entries are settled in an unspecified order, while the source follows the table's key order. The set of settlements and their contents are fully specified.
- `test/httpOverWebSocketMocks.js` (a `$httpBackend` wrapper), the example client and server, and the Chef, Vagrant and HAProxy files are not part of this model.

## Findings

| source | as written | input that shows it | evidently intended | confidence | as-written member | corrected member |
|---|---|---|---|---|---|---|
| src/httpOverWebSocket.js:381 | `typeof data !== 'object' \|\| !data[ID]` lets `null` through, because `typeof null` is `'object'`. Reading `null[ID]` then throws a TypeError inside the listener. | an inbound message `null` (what a peer writing `null` produces) | skip `null` like every other message that is not a reply ("Skip if not an httpOverWebSocket message") | not executed; high for the JavaScript semantics | Primus.OnDataAsWritten, Primus.NullMessageThrows | Primus.OnData |
