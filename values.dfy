/** Values that cross the boundary between the middleware and its collaborators:
    the JavaScript arguments it receives, the opaque handles the MySQL client hands
    back, the errors it raises or forwards, and the calls it makes into the client
    and into the response object. */
module Values {

  datatype Option<+T> = None | Some(value: T)

  datatype Result<+T, +E> = Success(value: T) | Failure(error: E)

  /** A JavaScript value as far as the middleware inspects it: it only ever compares
      arguments with `null` or with a string, and calls methods on objects. */
  datatype Value = Undefined | Null | Str(s: string) | Obj(id: nat)

  /** Identity of a connection object (a fresh client connection or a pooled lease). */
  type Conn = nat

  /** Identity of a pool object returned by `mysql.createPool`. */
  type PoolId = nat

  /** An error object coming from the MySQL client, reduced to its `code` property. */
  datatype DbError = DbError(code: string)

  /** What the middleware throws: its own configuration errors (`new Error(message)`),
      a TypeError from using `undefined` as an object or a function, or a client
      error it rethrows unchanged. */
  datatype JsError = Error(message: string) | TypeError | Db(err: DbError)

  /** The arguments a `getConnection` callback receives: `(null, connection)` or `(err)`. */
  datatype Reply = Ok(conn: Option<Conn>) | Failed(err: DbError)

  /** What calling `req.getConnection(callback)` amounts to: it throws, or it calls back. */
  datatype Invocation = Threw(error: JsError) | Replied(reply: Reply)

  /** A call the middleware makes into the MySQL client or into the response object. */
  datatype Call =
    | CreatePool(config: Value)
    | CreateConnection(config: Value, conn: Conn)
    | Connect(conn: Conn)
    | ListenForErrors(conn: Conn)
    | PoolGetConnection(pool: PoolId)
    | Release(conn: Conn)
    | EndConnection(conn: Conn)
    | OriginalEnd(data: Value, encoding: Value)

  /** The kinds of calls, for counting them in a trace. */
  datatype Kind = PoolCreating | Opening | Connecting | Listening | Acquiring | Releasing | Closing | Finishing

  function KindOf(c: Call): Kind
  {
    match c
    case CreatePool(_) => PoolCreating
    case CreateConnection(_, _) => Opening
    case Connect(_) => Connecting
    case ListenForErrors(_) => Listening
    case PoolGetConnection(_) => Acquiring
    case Release(_) => Releasing
    case EndConnection(_) => Closing
    case OriginalEnd(_, _) => Finishing
  }

  /** Number of calls of kind `k` in a trace. */
  function Count(calls: seq<Call>, k: Kind): (n: nat)
    ensures n <= |calls|
  {
    if calls == [] then 0
    else (if KindOf(calls[0]) == k then 1 else 0) + Count(calls[1..], k)
  }

  lemma {:induction false} CountAppend(a: seq<Call>, b: seq<Call>, k: Kind)
    ensures Count(a + b, k) == Count(a, k) + Count(b, k)
  {
    if a != [] {
      assert (a + b)[1..] == a[1..] + b;
      CountAppend(a[1..], b, k);
    } else {
      assert a + b == b;
    }
  }
}
