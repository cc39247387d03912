# express-myconnection: connection lifecycle model

A Dafny model of `lib/express-myconnection.js`, Express middleware that gives
every request a `req.getConnection(callback)` backed by a MySQL client, under one
of three strategies chosen when the middleware is created:

- `'single'` hands every request the one module-wide connection. `handleDisconnect`
  opens that connection and is meant to reopen it when the link is lost.
- `'pool'` leases one connection from a module-wide pool on the first call in a
  request. It caches the lease in the request's closure variable `poolConnection`.
- `'request'` opens a new connection on the first call in a request. It caches the
  connection in `requestConnection`.

Every request also gets a wrapped `res.end`. It ends `requestConnection` and
releases `poolConnection`, whichever is set, and then calls the original `end`.

The project has four modules:

- `Values` (`values.dfy`) holds the JavaScript values the library inspects
  (`undefined`, `null`, strings, objects), the client's opaque handles and errors,
  and `Call`, the calls the library makes into the client and into the response.
- `Lifecycle` (`lifecycle.dfy`) holds the library's decisions as functions:
  - strategy selection and the factory's `=== null` checks;
  - one `getConnection` call (`GetConnectionStep`) and the wrapped `end` (`EndCalls`);
  - the connect follow-up and the error classification of the shared connection;
  - `Run`, a request's sequence of `getConnection`/`end` calls.
- `RequestProperties` (`request_properties.dfy`) proves by induction over `Run`
  what the closure promises over a whole request.
- `Middleware` (`middleware.dfy`) holds the state that the source updates in place.
  Class `Shared` has the module-level `connection` and `pool`. Class
  `RequestContext` has one request's `poolConnection` and `requestConnection`.
  Each method is proved to follow the `Lifecycle` function that specifies it.
  Each class records the client calls it makes in a `calls` trace.

The MySQL client is foreign code. A connection or pool is an identity (`Conn`,
`PoolId`). An asynchronous result becomes method parameters. `handed` is the object
the client returns. `err` is the error argument its callback receives, so the
callback is the second half of each method.

Where the source's own comments and the code disagree, the model follows the code:

- The factory's doc comment (line 37) says an unset strategy defaults to the single
  strategy. In the code, `undefined` fails all three `===` comparisons (lines 49,
  58, 64, 80). The factory still starts the shared connection, but no
  `req.getConnection` is installed. Calling it throws a TypeError
  (`Lifecycle.StrategyOf`, `Lifecycle.GetConnectionStep`).
- The comment on `handleDisconnect` (lines 6-8) points to the node-mysql recipe for
  reconnecting after a lost link. The code's reconnect cannot work, as the finding
  below shows.

The factory calls `handleDisconnect` for every label other than `'pool'` (lines
49-53), so the `'request'` strategy also opens the shared connection, which it never
hands out.

## Model

| member | source | states |
|---|---|---|
| `Lifecycle.StrategyOf` | lib/express-myconnection.js:58-97 | Each strategy is selected exactly when the label is `===` its string; every other value, `undefined` included, selects none |
| `Lifecycle.CheckParams` | lib/express-myconnection.js:43-48 | Throws "Missing mysql module param" iff `mysql` is `null`; else "Missing dbConfig module param" iff `dbConfig` is `null`; `undefined` passes both |
| `Lifecycle.AfterConnect` | lib/express-myconnection.js:14-20 | A failed connect of the shared connection schedules a retry after 2000 ms; a successful one does not |
| `Lifecycle.Classify` | lib/express-myconnection.js:21-29 | An error leads to a reconnect iff its code is `PROTOCOL_CONNECTION_LOST`; any other error is rethrown unchanged |
| `Lifecycle.GetConnectionStep` | lib/express-myconnection.js:58-97 | One `getConnection`: 'single' returns the shared connection and touches no cache; unknown labels throw; a cached slot is returned with no client call; otherwise exactly one acquisition, whose failure goes to the callback with the cache unset and whose success is cached and returned; only the active strategy's slot changes |
| `Lifecycle.EndCalls` | lib/express-myconnection.js:99-109 | The wrapped `end` closes `x` iff `requestConnection` is `x`, releases `x` iff `poolConnection` is `x`, and calls the original `end(data, encoding)` last, with only the close and the release before it; with nothing cached it only forwards |
| `RequestProperties.EndCallsCount` | lib/express-myconnection.js:99-109 | The wrapped `end` makes exactly one release iff a lease is cached and one close iff a connection is cached, calls the original `end` exactly once, and never acquires or opens |
| `RequestProperties.RunPreservesExclusive` | lib/express-myconnection.js:55-97 | Any sequence of `getConnection`/`end` calls keeps only the active strategy's variable set |
| `RequestProperties.RequestCachesAtMostOne` | lib/express-myconnection.js:55-97 | In a request at most one of `poolConnection` and `requestConnection` is set; under 'single' or an unknown label neither is |
| `RequestProperties.CachedConnectionIsStable` | lib/express-myconnection.js:64-96 | Once a lease or connection is cached, every later call in the request gets that same one, the cache is unchanged and the pool or client is never contacted again |
| `RequestProperties.SingleHandsOutSharedConnection` | lib/express-myconnection.js:58-62 | Under 'single' every call returns `(null, connection)` for the current shared connection and the request cache is never read or written |
| `RequestProperties.OtherAlwaysThrows` | lib/express-myconnection.js:58-97 | Under an unknown label `getConnection` is not installed: every call throws and nothing is acquired |
| `RequestProperties.ApplyOpAccounting` | lib/express-myconnection.js:66-96 | One call either acquires nothing or starts one acquisition that fails visibly or fills the empty slot |
| `RequestProperties.AcquisitionsAreFailuresOrTheCachedOne` | lib/express-myconnection.js:66-96 | Over a request, pool acquisitions (or openings) equal the failed callbacks plus the one connection that ended up cached |
| `RequestProperties.AtMostOneAcquisitionBeyondFailures` | lib/express-myconnection.js:66-96 | From an empty cache a request acquires at most once more than the number of failed callbacks, so at most once if none fails |
| `RequestProperties.CachedIffSomeSuccess` | lib/express-myconnection.js:72-95 | With the client reachable, the slot ends up set exactly when some `getConnection` got a successful callback |
| `RequestProperties.GetReleasesNothing` | lib/express-myconnection.js:58-97 | A single `getConnection` call never releases, closes or calls the original `end` |
| `RequestProperties.GetsNeverRelease` | lib/express-myconnection.js:58-97 | Any number of `getConnection` calls never release, close or call the original `end` |
| `RequestProperties.EndReleasesOnlyTheCache` | lib/express-myconnection.js:99-109 | After calls that released and ended nothing, the wrapped `end` releases (or closes) exactly the active strategy's cached connection, nothing of the other kind, and calls the original `end` exactly once, last |
| `RequestProperties.RequestReleasesWhatItAcquired` | lib/express-myconnection.js:64-109 | A request under 'pool' (or 'request') that calls `getConnection` and then `end` releases the lease (or closes the connection) exactly once iff some acquisition succeeded, nothing of the other kind, and calls the original `end` exactly once, as the last call, so after the release |
| `RequestProperties.EndTwiceReleasesTwice` | lib/express-myconnection.js:99-109 | The wrapper does not clear the cache, so a second `end` releases the lease again |
| `Middleware.Shared.constructor` | lib/express-myconnection.js:2-4 | `connection` and `pool` start unset |
| `Middleware.Shared.HandleDisconnect` | lib/express-myconnection.js:9-30 | A non-object `mysql` throws a TypeError and changes nothing; otherwise the shared connection becomes the new one, which is connected and listened to, and the pool is untouched |
| `Middleware.Shared.OnConnect` | lib/express-myconnection.js:14-20 | The connect callback schedules a retry after 2000 ms iff the connect failed, and changes no state: the failed connection stays the shared one |
| `Middleware.FailedConnectKeepsConnection` | lib/express-myconnection.js:12-17 | Under 'single', after a failed connect the retry is scheduled after 2000 ms and the failed connection is still the shared one |
| `Middleware.Shared.CreateMiddleware` | lib/express-myconnection.js:41-53 | The factory fails with `CheckParams`'s error, or with a TypeError for a non-object `mysql`, and then changes nothing; on success 'pool' creates the pool and leaves the connection alone, and every other label starts the shared connection and leaves the pool alone |
| `Middleware.Shared.OnErrorAsWritten` | lib/express-myconnection.js:21-29 | As written, a lost connection throws a TypeError from the argument-less reconnect, any other error is rethrown, and the shared connection is never replaced |
| `Middleware.Shared.OnError` | lib/express-myconnection.js:21-29 | As intended, a lost connection is replaced by a new one from the factory's `mysql` and `dbConfig`; any other error is rethrown and nothing changes |
| `Middleware.LostConnectionIsNeverReplaced` | lib/express-myconnection.js:25 | With 'single', after PROTOCOL_CONNECTION_LOST the listener throws a TypeError and the lost connection stays the shared one; the throw is uncaught, so the process ends unless the application keeps it alive, and then every request gets the lost connection |
| `Middleware.RequestContext.constructor` | lib/express-myconnection.js:54-57 | A request starts with both closure variables unset |
| `Middleware.RequestContext.GetConnection` | lib/express-myconnection.js:58-97 | The installed `req.getConnection` updates the closure variables and makes the client calls as `GetConnectionStep` says, keeping only the active strategy's variable set |
| `Middleware.RequestContext.End` | lib/express-myconnection.js:98-109 | The wrapped `res.end` makes the calls `EndCalls` says and leaves the cache as it was |
| `Middleware.PoolRequestScenario` | lib/express-myconnection.js:49-109 | Under 'pool', two `getConnection` calls get the same lease from one pool acquisition, and `end` releases it once before the original `end` |

## Findings

| source | as written | input that shows it | evidently intended | confidence | as-written member | corrected member |
|---|---|---|---|---|---|---|
| lib/express-myconnection.js:25 | the 'error' listener reconnects with `handleDisconnect()`, with no arguments, so `mysql.createConnection` reads a property of `undefined` | the shared connection emits an error with code `PROTOCOL_CONNECTION_LOST` (worked through in `Middleware.LostConnectionIsNeverReplaced`); the TypeError is uncaught, so by default the process ends, and an application that survives it with an `uncaughtException` handler keeps handing out the lost connection | `handleDisconnect(mysql, dbConfig)`, which replaces the lost connection | high; not executed | `Middleware.Shared.OnErrorAsWritten` | `Middleware.Shared.OnError` |

## Left out

- Logging (`console.log`) is left out because it is output only.
- The 2000 ms retry timer after a failed connect (line 17) is left out because it is
  event-loop scheduling. `Lifecycle.AfterConnect` only decides whether a retry is
  scheduled and with what delay. The timer calls `handleDisconnect` with no
  arguments too, so the retry would fail like the reconnect in the finding.
- An error other than a lost connection is rethrown from the 'error' listener (line
  27). The client runs that listener from a socket callback, so the throw is an
  uncaught exception, and by default Node ends the process. The model records only
  what is thrown (`Middleware.Shared.OnErrorAsWritten`, `Middleware.Shared.OnError`);
  process termination and `uncaughtException` handlers are not modelled.
- The original `end` is called as a plain function (line 108) after being copied out
  of `res` (line 98). The exported function is in strict mode (line 42), so the
  original `end` runs with `this` undefined instead of `res`. What Node's `end` then
  does is not part of this model; it reads its receiver, so it likely throws. The
  model records the call as `OriginalEnd(data, encoding)` and does not capture the
  lost receiver.
- What the client does is not modelled: connecting, pooling, queries, and whether
  `release` or `end` succeed. A client call is recorded in a `calls` trace and its
  outcome is a parameter.
- Overlapping `getConnection` calls within one request are not modelled. Each call
  runs to its callback before the next starts, so the per-request at-most-once
  results hold only for calls in sequence. In the source the cache is assigned only
  in the callback (lines 76, 93), so two calls in flight can both acquire.
- Express plumbing is not modelled. That covers `next()` (line 110) and every
  property of `req` and `res` other than the two the middleware installs.
- JavaScript truthiness of `poolConnection`/`requestConnection` is taken to be "is
  set": the client only ever stores connection objects there, and they are truthy.
- A request whose response never ends keeps its lease or connection. The model shows
  this by not running `End`; nothing releases a resource without it.
- `Middleware.RequestContext.GetConnection` treats an unset `pool` under 'pool' as a
  TypeError. That case cannot arise after a successful factory call, because the
  factory sets `pool` under 'pool' and nothing unsets it.
