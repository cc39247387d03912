/** The library's state and its in-place updates: the module-level singletons
    (`connection` and `pool`) that the factory and `handleDisconnect` reassign, and
    the per-request closure whose `poolConnection` and `requestConnection` the
    installed `req.getConnection` fills in and the wrapped `res.end` reads. Results
    of the client's asynchronous calls are parameters: the callback is the second
    half of each method. */
module Middleware {
  import opened Values
  import opened Lifecycle

  /** The middleware function the factory returns, as the three arguments it captures. */
  datatype Handler = Handler(mysql: Value, dbConfig: Value, strategy: Value)

  /** The module-level variables shared by every middleware built from this module. */
  class Shared {
    /** The shared connection of the 'single' strategy. */
    var connection: Option<Conn>
    /** The pool of the 'pool' strategy. */
    var pool: Option<PoolId>
    /** Calls made into the MySQL client, oldest first. */
    var calls: seq<Call>

    /** Both variables start `undefined` when the module is loaded. */
    constructor ()
      ensures connection == None && pool == None && calls == []
    {
      connection := None;
      pool := None;
      calls := [];
    }

    /** `handleDisconnect(mysql, dbConfig)`: replaces the shared connection by a new one
        (`handed`, the object `mysql.createConnection` returns), starts connecting it and
        listens for its errors. A `mysql` that is not an object makes the first property
        access throw a TypeError before anything is assigned. */
    method HandleDisconnect(mysql: Value, dbConfig: Value, handed: Conn) returns (thrown: Option<JsError>)
      modifies this
      ensures thrown == None <==> mysql.Obj?
      ensures thrown != None ==> thrown == Some(TypeError) && unchanged(this)
      ensures thrown == None ==>
        connection == Some(handed) && pool == old(pool) &&
        calls == old(calls) + [CreateConnection(dbConfig, handed), Connect(handed), ListenForErrors(handed)]
    {
      if !mysql.Obj? {
        return Some(TypeError);
      }
      connection := Some(handed);
      calls := calls + [CreateConnection(dbConfig, handed), Connect(handed), ListenForErrors(handed)];
      thrown := None;
    }

    /** The connect callback of the shared connection: a failed connect schedules a
        retry after `RETRY_DELAY_MS` and leaves the failed connection in place as the
        shared connection until then; a successful one changes nothing either. */
    method OnConnect(err: Option<DbError>) returns (f: FollowUp)
      modifies this
      ensures f == Connected <==> err == None
      ensures err != None ==> f == RetryAfter(RETRY_DELAY_MS)
      ensures unchanged(this)
    {
      f := AfterConnect(err);
    }

    /** The exported factory `(mysql, dbConfig, strategy)`. `handed` is the connection
        `handleDisconnect` would create and `newPool` the pool `createPool` would return. */
    method CreateMiddleware(mysql: Value, dbConfig: Value, strategy: Value, handed: Conn, newPool: PoolId)
      returns (r: Result<Handler, JsError>)
      modifies this
      // the two strict null checks, in order
      ensures CheckParams(mysql, dbConfig).Some? ==> r == Failure(CheckParams(mysql, dbConfig).value) && unchanged(this)
      // `undefined` (or any non-object) passes them but cannot be used as the client
      ensures CheckParams(mysql, dbConfig).None? && !mysql.Obj? ==> r == Failure(TypeError) && unchanged(this)
      ensures r.Success? <==> CheckParams(mysql, dbConfig).None? && mysql.Obj?
      ensures r.Success? ==> r.value == Handler(mysql, dbConfig, strategy)
      // 'pool' creates the pool and leaves the shared connection alone
      ensures r.Success? && StrategyOf(strategy) == Pool ==>
        pool == Some(newPool) && connection == old(connection) && calls == old(calls) + [CreatePool(dbConfig)]
      // every other label, unknown ones and `undefined` included, starts the shared connection
      ensures r.Success? && StrategyOf(strategy) != Pool ==>
        pool == old(pool) && connection == Some(handed) &&
        calls == old(calls) + [CreateConnection(dbConfig, handed), Connect(handed), ListenForErrors(handed)]
    {
      var invalid := CheckParams(mysql, dbConfig);
      if invalid.Some? {
        return Failure(invalid.value);
      }
      if strategy == Str(POOL_LABEL) {
        if !mysql.Obj? {
          return Failure(TypeError);
        }
        pool := Some(newPool);
        calls := calls + [CreatePool(dbConfig)];
      } else {
        var thrown := HandleDisconnect(mysql, dbConfig, handed);
        if thrown.Some? {
          return Failure(thrown.value);
        }
      }
      r := Success(Handler(mysql, dbConfig, strategy));
    }

    /** The 'error' listener of the shared connection as written: on a lost connection
        it calls `handleDisconnect()` with no arguments, so the reconnect reads a
        property of `undefined` and throws a TypeError; any other error is rethrown.
        Either way the listener throws and the dead connection stays in place. The
        client runs the listener from a socket callback, so what is thrown here is
        an uncaught exception, which by default ends the process. */
    method OnErrorAsWritten(err: DbError, handed: Conn) returns (thrown: JsError)
      modifies this
      ensures Classify(err) == Reconnect ==> thrown == TypeError
      ensures Classify(err) != Reconnect ==> thrown == Db(err)
      ensures unchanged(this)
    {
      match Classify(err) {
        case Reconnect =>
          var t := HandleDisconnect(Undefined, Undefined, handed);
          thrown := t.value;
        case Rethrow(e) =>
          thrown := Db(e);
      }
    }

    /** The 'error' listener as intended: a lost connection is replaced by a new one
        made from the factory's own `mysql` and `dbConfig`; any other error is rethrown
        and nothing changes. */
    method OnError(err: DbError, mysql: Value, dbConfig: Value, handed: Conn) returns (thrown: Option<JsError>)
      requires mysql.Obj?
      modifies this
      ensures err.code == CONNECTION_LOST ==>
        thrown == None && connection == Some(handed) && pool == old(pool) &&
        calls == old(calls) + [CreateConnection(dbConfig, handed), Connect(handed), ListenForErrors(handed)]
      ensures err.code != CONNECTION_LOST ==> thrown == Some(Db(err)) && unchanged(this)
    {
      match Classify(err) {
        case Reconnect =>
          thrown := HandleDisconnect(mysql, dbConfig, handed);
        case Rethrow(e) =>
          thrown := Some(Db(e));
      }
    }
  }

  /** A lost shared connection is never replaced: the factory succeeds with 'single',
      the connection reports PROTOCOL_CONNECTION_LOST, and the listener as written
      throws a TypeError while the lost connection stays the shared one. The TypeError
      is uncaught and by default ends the process; only an application that keeps
      the process alive (an `uncaughtException` handler) goes on serving requests,
      and they all get the lost connection. */
  method LostConnectionIsNeverReplaced() returns (thrown: JsError, current: Option<Conn>)
    ensures thrown == TypeError
    ensures current == Some(1)
  {
    var shared := new Shared();
    var r := shared.CreateMiddleware(Obj(0), Obj(0), Str(SINGLE_LABEL), 1, 0);
    thrown := shared.OnErrorAsWritten(DbError(CONNECTION_LOST), 2);
    current := shared.connection;
  }

  /** Under 'single', when the shared connection fails to connect, the retry is
      scheduled after 2000 ms and until then the failed connection is the one the
      middleware hands out. */
  method FailedConnectKeepsConnection() returns (f: FollowUp, current: Option<Conn>)
    ensures f == RetryAfter(2000)
    ensures current == Some(1)
  {
    var shared := new Shared();
    var r := shared.CreateMiddleware(Obj(0), Obj(0), Str(SINGLE_LABEL), 1, 0);
    f := shared.OnConnect(Some(DbError("ECONNREFUSED")));
    current := shared.connection;
  }

  /** The state of one request inside the middleware: the closure variables
      `poolConnection` and `requestConnection`, and what the closure reads. */
  class RequestContext {
    const handler: Handler
    const shared: Shared
    const strategy: Strategy
    var poolConnection: Option<Conn>
    var requestConnection: Option<Conn>
    /** Calls this request made into the client and into the original `res.end`. */
    var calls: seq<Call>

    function CacheOf(): Cache
      reads this
    {
      Cache(poolConnection, requestConnection)
    }

    function EnvOf(): Env
      reads this, shared
    {
      Env(shared.connection, shared.pool, handler.mysql, handler.dbConfig)
    }

    /** Only the active strategy's own variable is ever set. */
    ghost predicate Valid()
      reads this
    {
      Exclusive(strategy, CacheOf())
    }

    /** Entering the middleware: both closure variables start `undefined`, and
        `req.getConnection` is installed for the three known labels only. */
    constructor (handler: Handler, shared: Shared)
      ensures this.handler == handler && this.shared == shared
      ensures strategy == StrategyOf(handler.strategy)
      ensures CacheOf() == EMPTY && calls == []
      ensures Valid()
    {
      this.handler := handler;
      this.shared := shared;
      this.strategy := StrategyOf(handler.strategy);
      poolConnection := None;
      requestConnection := None;
      calls := [];
    }

    /** `req.getConnection(callback)`. `handed` is the connection the client produces
        (the pool's lease, or the object `createConnection` returns) and `err` the error
        its callback receives; `r` is how the caller's callback is invoked. */
    method GetConnection(handed: Conn, err: Option<DbError>) returns (r: Invocation)
      requires Valid()
      modifies this`poolConnection, this`requestConnection, this`calls
      ensures Valid()
      ensures var st := GetConnectionStep(strategy, EnvOf(), old(CacheOf()), handed, err);
        CacheOf() == st.cache && calls == old(calls) + st.calls && r == st.result
    {
      if strategy == Single {
        r := Replied(Ok(shared.connection));
      } else if strategy == Pool {
        if poolConnection.Some? {
          return Replied(Ok(poolConnection));
        }
        if shared.pool.None? {
          return Threw(TypeError);
        }
        calls := calls + [PoolGetConnection(shared.pool.value)];
        if err.Some? {
          return Replied(Failed(err.value));
        }
        poolConnection := Some(handed);
        r := Replied(Ok(poolConnection));
      } else if strategy == Request {
        if requestConnection.Some? {
          return Replied(Ok(requestConnection));
        }
        if !handler.mysql.Obj? {
          return Threw(TypeError);
        }
        calls := calls + [CreateConnection(handler.dbConfig, handed), Connect(handed)];
        if err.Some? {
          return Replied(Failed(err.value));
        }
        requestConnection := Some(handed);
        r := Replied(Ok(requestConnection));
      } else {
        r := Threw(TypeError);
      }
    }

    /** The wrapped `res.end(data, encoding)`: ends the request's own connection if
        there is one, releases the pooled lease if there is one, then calls the
        original `end` with the same arguments. The cache is left as it was. */
    method End(data: Value, encoding: Value)
      requires Valid()
      modifies this`calls
      ensures Valid()
      ensures CacheOf() == old(CacheOf())
      ensures calls == old(calls) + EndCalls(CacheOf(), data, encoding)
    {
      if requestConnection.Some? {
        calls := calls + [EndConnection(requestConnection.value)];
      }
      if poolConnection.Some? {
        calls := calls + [Release(poolConnection.value)];
      }
      calls := calls + [OriginalEnd(data, encoding)];
    }
  }

  /** A request under 'pool' whose handler calls `getConnection` twice and then ends
      the response: one lease, the same lease twice, released once before `end`. */
  method PoolRequestScenario(lease: Conn) returns (first: Invocation, second: Invocation, calls: seq<Call>)
    ensures first == Replied(Ok(Some(lease))) && second == first
    ensures calls == [CreatePool(Obj(1)), PoolGetConnection(7), Release(lease), OriginalEnd(Undefined, Undefined)]
  {
    var shared := new Shared();
    var r := shared.CreateMiddleware(Obj(0), Obj(1), Str(POOL_LABEL), 3, 7);
    var request := new RequestContext(r.value, shared);
    first := request.GetConnection(lease, None);
    second := request.GetConnection(lease + 1, None);
    request.End(Undefined, Undefined);
    calls := shared.calls + request.calls;
  }
}
