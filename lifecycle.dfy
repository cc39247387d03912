/** The decisions the middleware takes, as functions of the state they read:
    parameter checks and strategy selection in the factory, one `getConnection`
    call under each strategy, the wrapped `res.end`, and the classification of
    errors on the shared connection. The classes in module Middleware are proved
    to follow these functions; module RequestProperties proves what they promise
    over a whole request. */
module Lifecycle {
  import opened Values

  /** Strategy selected by the factory's third argument. */
  datatype Strategy = Single | Pool | Request | Other

  const SINGLE_LABEL := "single"
  const POOL_LABEL := "pool"
  const REQUEST_LABEL := "request"

  const MISSING_MYSQL := "Missing mysql module param"
  const MISSING_DB_CONFIG := "Missing dbConfig module param"

  /** Code of the client error that makes the shared connection reconnect. */
  const CONNECTION_LOST := "PROTOCOL_CONNECTION_LOST"

  /** Delay before a failed connect of the shared connection is retried. */
  const RETRY_DELAY_MS := 2000

  /** The label is compared with `===` against the three strings; anything else,
      `undefined` included, selects no strategy. */
  function StrategyOf(strategy: Value): (s: Strategy)
    ensures s == Single <==> strategy == Str(SINGLE_LABEL)
    ensures s == Pool <==> strategy == Str(POOL_LABEL)
    ensures s == Request <==> strategy == Str(REQUEST_LABEL)
  {
    if strategy == Str(SINGLE_LABEL) then Single
    else if strategy == Str(POOL_LABEL) then Pool
    else if strategy == Str(REQUEST_LABEL) then Request
    else Other
  }

  /** The factory's two strict `=== null` checks, in order; `undefined` passes both. */
  function CheckParams(mysql: Value, dbConfig: Value): (r: Option<JsError>)
    ensures r == Some(Error(MISSING_MYSQL)) <==> mysql == Null
    ensures r == Some(Error(MISSING_DB_CONFIG)) <==> mysql != Null && dbConfig == Null
    ensures r == None <==> mysql != Null && dbConfig != Null
  {
    if mysql == Null then Some(Error(MISSING_MYSQL))
    else if dbConfig == Null then Some(Error(MISSING_DB_CONFIG))
    else None
  }

  /** What the connect callback of the shared connection does next. */
  datatype FollowUp = Connected | RetryAfter(ms: nat)

  function AfterConnect(err: Option<DbError>): (f: FollowUp)
    ensures f == Connected <==> err == None
    ensures f != Connected ==> f == RetryAfter(RETRY_DELAY_MS)
  {
    if err.Some? then RetryAfter(RETRY_DELAY_MS) else Connected
  }

  /** What the 'error' listener of the shared connection does with an error. */
  datatype ErrorAction = Reconnect | Rethrow(err: DbError)

  function Classify(err: DbError): (a: ErrorAction)
    ensures a == Reconnect <==> err.code == CONNECTION_LOST
    ensures a != Reconnect ==> a == Rethrow(err)
  {
    if err.code == CONNECTION_LOST then Reconnect else Rethrow(err)
  }

  /** The request-local variables `poolConnection` and `requestConnection`. */
  datatype Cache = Cache(poolConnection: Option<Conn>, requestConnection: Option<Conn>)

  const EMPTY := Cache(None, None)

  /** What a request reads outside its own cache: the module-level `connection` and
      `pool`, and the `mysql` and `dbConfig` arguments the factory captured. */
  datatype Env = Env(connection: Option<Conn>, pool: Option<PoolId>, mysql: Value, dbConfig: Value)

  /** The cache slot a strategy owns. */
  function Slot(s: Strategy, c: Cache): Option<Conn>
  {
    match s
    case Pool => c.poolConnection
    case Request => c.requestConnection
    case _ => None
  }

  function SetSlot(s: Strategy, c: Cache, conn: Conn): Cache
  {
    match s
    case Pool => c.(poolConnection := Some(conn))
    case Request => c.(requestConnection := Some(conn))
    case _ => c
  }

  /** Only the active strategy's own slot may be set. */
  predicate Exclusive(s: Strategy, c: Cache)
  {
    (s != Pool ==> c.poolConnection == None) && (s != Request ==> c.requestConnection == None)
  }

  /** The client calls a strategy makes to obtain a new connection. */
  function AcquireCalls(s: Strategy, env: Env, handed: Conn): seq<Call>
    requires s == Pool ==> env.pool.Some?
  {
    match s
    case Pool => [PoolGetConnection(env.pool.value)]
    case Request => [CreateConnection(env.dbConfig, handed), Connect(handed)]
    case _ => []
  }

  /** Whether the strategy can reach the client at all: `pool` is an object under
      'pool', `mysql` is an object under 'request'. */
  predicate Reachable(s: Strategy, env: Env)
  {
    (s == Pool ==> env.pool.Some?) && (s == Request ==> env.mysql.Obj?)
  }

  datatype Step = Step(cache: Cache, calls: seq<Call>, result: Invocation)

  /** One call of `req.getConnection(callback)`. `handed` is the connection the client
      hands back (the lease, or the object `createConnection` returned) and `err` the
      error argument its callback receives. */
  function GetConnectionStep(s: Strategy, env: Env, c: Cache, handed: Conn, err: Option<DbError>): (st: Step)
    // 'single' hands out the current shared connection and touches nothing else
    ensures s == Single ==> st == Step(c, [], Replied(Ok(env.connection)))
    // an unknown label installed no getConnection: calling it throws
    ensures s == Other ==> st == Step(c, [], Threw(TypeError))
    // a cached lease or connection is returned without contacting the client
    ensures (s == Pool || s == Request) && Slot(s, c).Some? ==> st == Step(c, [], Replied(Ok(Slot(s, c))))
    // otherwise exactly one acquisition is started
    ensures (s == Pool || s == Request) && Slot(s, c).None? && Reachable(s, env) ==>
      st.calls == AcquireCalls(s, env, handed) &&
      (err.Some? ==> st.cache == c && st.result == Replied(Failed(err.value))) &&
      (err.None? ==> st.cache == SetSlot(s, c, handed) && st.result == Replied(Ok(Some(handed))))
    // under 'pool' with no pool object, or under 'request' with no mysql object, the call throws
    ensures (s == Pool || s == Request) && Slot(s, c).None? && !Reachable(s, env) ==> st == Step(c, [], Threw(TypeError))
    ensures Exclusive(s, c) ==> Exclusive(s, st.cache)
  {
    match s
    case Single => Step(c, [], Replied(Ok(env.connection)))
    case Other => Step(c, [], Threw(TypeError))
    case Pool =>
      if c.poolConnection.Some? then Step(c, [], Replied(Ok(c.poolConnection)))
      else if env.pool.None? then Step(c, [], Threw(TypeError))
      else if err.Some? then Step(c, [PoolGetConnection(env.pool.value)], Replied(Failed(err.value)))
      else Step(c.(poolConnection := Some(handed)), [PoolGetConnection(env.pool.value)], Replied(Ok(Some(handed))))
    case Request =>
      if c.requestConnection.Some? then Step(c, [], Replied(Ok(c.requestConnection)))
      else if !env.mysql.Obj? then Step(c, [], Threw(TypeError))
      else
        var calls := [CreateConnection(env.dbConfig, handed), Connect(handed)];
        if err.Some? then Step(c, calls, Replied(Failed(err.value)))
        else Step(c.(requestConnection := Some(handed)), calls, Replied(Ok(Some(handed))))
  }

  /** The calls the wrapped `res.end(data, encoding)` makes: end the request's own
      connection, release the pooled lease, then the original `end`. */
  function EndCalls(c: Cache, data: Value, encoding: Value): (r: seq<Call>)
    ensures |r| >= 1 && r[|r| - 1] == OriginalEnd(data, encoding)
    // only the close and the release come before the original `end`
    ensures forall i :: 0 <= i < |r| - 1 ==> r[i].Release? || r[i].EndConnection?
    ensures forall x: Conn :: Release(x) in r <==> c.poolConnection == Some(x)
    ensures forall x: Conn :: EndConnection(x) in r <==> c.requestConnection == Some(x)
    ensures c == EMPTY ==> r == [OriginalEnd(data, encoding)]
  {
    (if c.requestConnection.Some? then [EndConnection(c.requestConnection.value)] else [])
    + (if c.poolConnection.Some? then [Release(c.poolConnection.value)] else [])
    + [OriginalEnd(data, encoding)]
  }

  /** What the request handler does with the two installed capabilities. */
  datatype Op = Get(handed: Conn, err: Option<DbError>) | End(data: Value, encoding: Value)

  datatype Trace = Trace(cache: Cache, calls: seq<Call>, results: seq<Invocation>)

  function ApplyOp(s: Strategy, env: Env, c: Cache, op: Op): Trace
  {
    match op
    case Get(handed, err) =>
      var st := GetConnectionStep(s, env, c, handed, err);
      Trace(st.cache, st.calls, [st.result])
    case End(data, encoding) => Trace(c, EndCalls(c, data, encoding), [])
  }

  /** A request's operations run one after the other from cache `c`: the last one
      runs on the cache the earlier ones left. */
  function Run(s: Strategy, env: Env, c: Cache, ops: seq<Op>): Trace
    decreases |ops|
  {
    if ops == [] then Trace(c, [], [])
    else
      var before := Run(s, env, c, ops[..|ops| - 1]);
      var last := ApplyOp(s, env, before.cache, ops[|ops| - 1]);
      Trace(last.cache, before.calls + last.calls, before.results + last.results)
  }

  /** Number of `getConnection` calls that called back with an error. */
  function Failures(results: seq<Invocation>): nat
  {
    if results == [] then 0
    else (if results[0].Replied? && results[0].reply.Failed? then 1 else 0) + Failures(results[1..])
  }

  function Cached(s: Strategy, c: Cache): nat
  {
    if Slot(s, c).Some? then 1 else 0
  }

  /** The kind of call that starts an acquisition under a strategy. */
  function AcquisitionKind(s: Strategy): Kind
  {
    if s == Request then Opening else Acquiring
  }

  /** Whether some `getConnection` in `ops` gets a successful callback from the client. */
  predicate SomeSuccess(ops: seq<Op>)
  {
    exists i :: 0 <= i < |ops| && ops[i].Get? && ops[i].err.None?
  }
}
