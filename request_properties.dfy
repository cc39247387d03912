/** What the per-request closure promises over a whole request: whatever sequence
    of `getConnection` and `end` calls the handler makes, only the active strategy's
    slot is ever set, a lease or connection once cached is the one every later call
    gets, every client acquisition either fails visibly or becomes the cached one,
    and `end` releases or closes exactly what was cached. */
module RequestProperties {
  import opened Values
  import opened Lifecycle

  lemma {:induction false} FailuresAppend(a: seq<Invocation>, b: seq<Invocation>)
    ensures Failures(a + b) == Failures(a) + Failures(b)
  {
    if a != [] {
      assert (a + b)[1..] == a[1..] + b;
      FailuresAppend(a[1..], b);
    } else {
      assert a + b == b;
    }
  }

  /** The wrapped `end` acquires nothing, closes the request's connection iff there is
      one, releases the lease iff there is one, and calls the original `end` once. */
  lemma EndCallsCount(c: Cache, data: Value, encoding: Value)
    ensures Count(EndCalls(c, data, encoding), Releasing) == (if c.poolConnection.Some? then 1 else 0)
    ensures Count(EndCalls(c, data, encoding), Closing) == (if c.requestConnection.Some? then 1 else 0)
    ensures Count(EndCalls(c, data, encoding), Acquiring) == 0
    ensures Count(EndCalls(c, data, encoding), Opening) == 0
    ensures Count(EndCalls(c, data, encoding), Finishing) == 1
  {
    var closing := if c.requestConnection.Some? then [EndConnection(c.requestConnection.value)] else [];
    var releasing := if c.poolConnection.Some? then [Release(c.poolConnection.value)] else [];
    var last := [OriginalEnd(data, encoding)];
    assert EndCalls(c, data, encoding) == closing + releasing + last;
    forall k: Kind
      ensures Count(EndCalls(c, data, encoding), k) == Count(closing, k) + Count(releasing, k) + Count(last, k)
    {
      CountAppend(closing + releasing, last, k);
      CountAppend(closing, releasing, k);
    }
  }

  /** Running the operations keeps the cache exclusive to the active strategy. */
  lemma {:induction false} RunPreservesExclusive(s: Strategy, env: Env, c: Cache, ops: seq<Op>)
    requires Exclusive(s, c)
    ensures Exclusive(s, Run(s, env, c, ops).cache)
    decreases |ops|
  {
    if ops != [] {
      RunPreservesExclusive(s, env, c, ops[..|ops| - 1]);
    }
  }

  /** In a request, at most one of `poolConnection` and `requestConnection` is ever set,
      and under 'single' or an unknown label neither is. */
  lemma RequestCachesAtMostOne(s: Strategy, env: Env, ops: seq<Op>)
    ensures var c := Run(s, env, EMPTY, ops).cache;
      c.poolConnection == None || c.requestConnection == None
    ensures s == Single || s == Other ==> Run(s, env, EMPTY, ops).cache == EMPTY
  {
    RunPreservesExclusive(s, env, EMPTY, ops);
  }

  /** Every result in `results` is `r`. */
  predicate AllAre(results: seq<Invocation>, r: Invocation)
  {
    forall i :: 0 <= i < |results| ==> results[i] == r
  }

  /** A step that leaves the cache at `c`, calls back with `r` if it is a
      `getConnection`, and neither acquires nor opens. */
  predicate Quiet(t: Trace, c: Cache, r: Invocation)
  {
    t.cache == c && AllAre(t.results, r) && Count(t.calls, Acquiring) == 0 && Count(t.calls, Opening) == 0
  }

  /** Quiet steps compose. */
  lemma QuietThen(before: Trace, last: Trace, c: Cache, r: Invocation)
    requires Quiet(before, c, r) && Quiet(last, c, r)
    ensures Quiet(Trace(last.cache, before.calls + last.calls, before.results + last.results), c, r)
  {
    CountAppend(before.calls, last.calls, Acquiring);
    CountAppend(before.calls, last.calls, Opening);
    var all := before.results + last.results;
    forall i | 0 <= i < |all| ensures all[i] == r {
      if i >= |before.results| {
        assert all[i] == last.results[i - |before.results|];
      }
    }
  }

  /** Once the active strategy's slot holds `x`, every later `getConnection` calls back
      with `x`, no acquisition happens and the cache stays as it is. */
  lemma {:induction false} CachedConnectionIsStable(s: Strategy, env: Env, c: Cache, ops: seq<Op>, x: Conn)
    requires s == Pool || s == Request
    requires Slot(s, c) == Some(x)
    ensures Quiet(Run(s, env, c, ops), c, Replied(Ok(Some(x))))
    decreases |ops|
  {
    if ops != [] {
      var op := ops[|ops| - 1];
      CachedConnectionIsStable(s, env, c, ops[..|ops| - 1], x);
      if op.End? {
        EndCallsCount(c, op.data, op.encoding);
      }
      QuietThen(Run(s, env, c, ops[..|ops| - 1]), ApplyOp(s, env, c, op), c, Replied(Ok(Some(x))));
    }
  }

  /** Under 'single', every `getConnection` calls back with the shared connection and
      the request-local cache is never touched. */
  lemma {:induction false} SingleHandsOutSharedConnection(env: Env, c: Cache, ops: seq<Op>)
    ensures Quiet(Run(Single, env, c, ops), c, Replied(Ok(env.connection)))
    decreases |ops|
  {
    if ops != [] {
      var op := ops[|ops| - 1];
      SingleHandsOutSharedConnection(env, c, ops[..|ops| - 1]);
      if op.End? {
        EndCallsCount(c, op.data, op.encoding);
      }
      QuietThen(Run(Single, env, c, ops[..|ops| - 1]), ApplyOp(Single, env, c, op), c, Replied(Ok(env.connection)));
    }
  }

  /** Under an unknown label, every `getConnection` throws and nothing is acquired. */
  lemma {:induction false} OtherAlwaysThrows(env: Env, c: Cache, ops: seq<Op>)
    ensures Quiet(Run(Other, env, c, ops), c, Threw(TypeError))
    decreases |ops|
  {
    if ops != [] {
      var op := ops[|ops| - 1];
      OtherAlwaysThrows(env, c, ops[..|ops| - 1]);
      if op.End? {
        EndCallsCount(c, op.data, op.encoding);
      }
      QuietThen(Run(Other, env, c, ops[..|ops| - 1]), ApplyOp(Other, env, c, op), c, Threw(TypeError));
    }
  }

  lemma ApplyOpAccounting(s: Strategy, env: Env, c: Cache, op: Op)
    requires s == Pool || s == Request
    ensures var t := ApplyOp(s, env, c, op);
      Count(t.calls, AcquisitionKind(s)) + Cached(s, c) == Failures(t.results) + Cached(s, t.cache)
  {
    match op
    case End(data, encoding) =>
      EndCallsCount(c, data, encoding);
    case Get(handed, err) =>
      var st := GetConnectionStep(s, env, c, handed, err);
      assert Failures([st.result]) == if st.result.Replied? && st.result.reply.Failed? then 1 else 0;
      if Slot(s, c).None? && Reachable(s, env) {
        if s == Request {
          assert Count(st.calls, Opening) == 1;
        } else {
          assert Count(st.calls, Acquiring) == 1;
        }
      }
  }

  /** Every acquisition the request starts either calls back with an error or becomes
      the cached connection: at most one acquisition succeeds per request. */
  lemma {:induction false} AcquisitionsAreFailuresOrTheCachedOne(s: Strategy, env: Env, c: Cache, ops: seq<Op>)
    requires s == Pool || s == Request
    ensures var t := Run(s, env, c, ops);
      Count(t.calls, AcquisitionKind(s)) + Cached(s, c) == Failures(t.results) + Cached(s, t.cache)
    decreases |ops|
  {
    if ops != [] {
      var before := Run(s, env, c, ops[..|ops| - 1]);
      var last := ApplyOp(s, env, before.cache, ops[|ops| - 1]);
      AcquisitionsAreFailuresOrTheCachedOne(s, env, c, ops[..|ops| - 1]);
      ApplyOpAccounting(s, env, before.cache, ops[|ops| - 1]);
      CountAppend(before.calls, last.calls, AcquisitionKind(s));
      FailuresAppend(before.results, last.results);
    }
  }

  /** From an empty cache, the pool is asked for a lease (or a connection is opened)
      at most once more than the number of failed callbacks. */
  lemma AtMostOneAcquisitionBeyondFailures(s: Strategy, env: Env, ops: seq<Op>)
    requires s == Pool || s == Request
    ensures var t := Run(s, env, EMPTY, ops);
      Count(t.calls, AcquisitionKind(s)) <= Failures(t.results) + 1
  {
    AcquisitionsAreFailuresOrTheCachedOne(s, env, EMPTY, ops);
  }

  lemma SomeSuccessSplit(ops: seq<Op>)
    requires ops != []
    ensures SomeSuccess(ops) <==>
      SomeSuccess(ops[..|ops| - 1]) || (ops[|ops| - 1].Get? && ops[|ops| - 1].err.None?)
  {
    var prefix := ops[..|ops| - 1];
    if SomeSuccess(prefix) {
      var i :| 0 <= i < |prefix| && prefix[i].Get? && prefix[i].err.None?;
      assert ops[i] == prefix[i];
    }
    if SomeSuccess(ops) {
      var i :| 0 <= i < |ops| && ops[i].Get? && ops[i].err.None?;
      if i < |prefix| {
        assert prefix[i] == ops[i];
      }
    }
  }

  /** With the client reachable, the slot ends up set exactly when some
      `getConnection` got a successful callback. */
  lemma {:induction false} CachedIffSomeSuccess(s: Strategy, env: Env, c: Cache, ops: seq<Op>)
    requires s == Pool || s == Request
    requires Reachable(s, env)
    requires Slot(s, c) == None
    ensures Slot(s, Run(s, env, c, ops).cache).Some? <==> SomeSuccess(ops)
    decreases |ops|
  {
    if ops != [] {
      var before := Run(s, env, c, ops[..|ops| - 1]);
      CachedIffSomeSuccess(s, env, c, ops[..|ops| - 1]);
      SomeSuccessSplit(ops);
      if ops[|ops| - 1].End? {
        assert Run(s, env, c, ops).cache == before.cache;
      }
    }
  }

  /** Calls `getConnection` only, never `end`. */
  predicate OnlyGets(ops: seq<Op>)
  {
    forall i :: 0 <= i < |ops| ==> ops[i].Get?
  }

  /** One `getConnection` neither releases, closes nor ends the response. */
  lemma GetReleasesNothing(s: Strategy, env: Env, c: Cache, handed: Conn, err: Option<DbError>)
    ensures var calls := GetConnectionStep(s, env, c, handed, err).calls;
      Count(calls, Releasing) == 0 && Count(calls, Closing) == 0 && Count(calls, Finishing) == 0
  {
    var calls := GetConnectionStep(s, env, c, handed, err).calls;
    if |calls| == 2 {
      assert calls[1..][1..] == [];
    }
  }

  lemma {:induction false} GetsNeverRelease(s: Strategy, env: Env, c: Cache, ops: seq<Op>)
    requires OnlyGets(ops)
    ensures Count(Run(s, env, c, ops).calls, Releasing) == 0
    ensures Count(Run(s, env, c, ops).calls, Closing) == 0
    ensures Count(Run(s, env, c, ops).calls, Finishing) == 0
    decreases |ops|
  {
    if ops != [] {
      var prefix := ops[..|ops| - 1];
      var before := Run(s, env, c, prefix);
      var last := ApplyOp(s, env, before.cache, ops[|ops| - 1]);
      assert OnlyGets(prefix) by {
        forall i | 0 <= i < |prefix| ensures prefix[i].Get? { assert prefix[i] == ops[i]; }
      }
      GetsNeverRelease(s, env, c, prefix);
      assert ops[|ops| - 1].Get?;
      GetReleasesNothing(s, env, before.cache, ops[|ops| - 1].handed, ops[|ops| - 1].err);
      CountAppend(before.calls, last.calls, Releasing);
      CountAppend(before.calls, last.calls, Closing);
      CountAppend(before.calls, last.calls, Finishing);
    }
  }

  function ReleaseKind(s: Strategy): Kind
  {
    if s == Request then Closing else Releasing
  }

  /** A request that calls `getConnection` any number of times and then `end`:
      the lease is released (under 'pool') or the connection closed (under 'request')
      exactly once if some acquisition succeeded and never otherwise, nothing of the
      other kind is released, and the original `end` is called once, last. */
  lemma RequestReleasesWhatItAcquired(s: Strategy, env: Env, ops: seq<Op>, data: Value, encoding: Value)
    requires s == Pool || s == Request
    requires Reachable(s, env)
    requires OnlyGets(ops)
    ensures var calls := Run(s, env, EMPTY, ops + [End(data, encoding)]).calls;
      Count(calls, ReleaseKind(s)) == (if SomeSuccess(ops) then 1 else 0) &&
      Count(calls, if s == Request then Releasing else Closing) == 0 &&
      Count(calls, Finishing) == 1 &&
      |calls| >= 1 && calls[|calls| - 1] == OriginalEnd(data, encoding)
  {
    var before := Run(s, env, EMPTY, ops);
    var calls := before.calls + EndCalls(before.cache, data, encoding);
    assert Run(s, env, EMPTY, ops + [End(data, encoding)]).calls == calls by {
      RunThenEnd(s, env, EMPTY, ops, data, encoding);
    }
    assert Exclusive(s, before.cache) && (Cached(s, before.cache) == 1 <==> SomeSuccess(ops)) by {
      CachedIffSomeSuccess(s, env, EMPTY, ops);
      RunPreservesExclusive(s, env, EMPTY, ops);
    }
    assert Count(before.calls, Releasing) == 0 && Count(before.calls, Closing) == 0 &&
      Count(before.calls, Finishing) == 0 by {
      GetsNeverRelease(s, env, EMPTY, ops);
    }
    EndReleasesOnlyTheCache(s, before.calls, before.cache, data, encoding);
  }

  /** A final `end` adds exactly the wrapper's calls on the cache as it then is. */
  lemma RunThenEnd(s: Strategy, env: Env, c: Cache, ops: seq<Op>, data: Value, encoding: Value)
    ensures var before := Run(s, env, c, ops);
      Run(s, env, c, ops + [End(data, encoding)]).calls == before.calls + EndCalls(before.cache, data, encoding)
  {
    var whole := ops + [End(data, encoding)];
    assert whole[..|whole| - 1] == ops;
  }

  /** Counting the calls of `calls` followed by the wrapper's, when `calls` released
      and closed nothing. */
  lemma EndReleasesOnlyTheCache(s: Strategy, calls: seq<Call>, c: Cache, data: Value, encoding: Value)
    requires s == Pool || s == Request
    requires Exclusive(s, c)
    requires Count(calls, Releasing) == 0 && Count(calls, Closing) == 0 && Count(calls, Finishing) == 0
    ensures var all := calls + EndCalls(c, data, encoding);
      Count(all, ReleaseKind(s)) == Cached(s, c) &&
      Count(all, if s == Request then Releasing else Closing) == 0 &&
      Count(all, Finishing) == 1 &&
      |all| >= 1 && all[|all| - 1] == OriginalEnd(data, encoding)
  {
    var tail := EndCalls(c, data, encoding);
    EndCallsCount(c, data, encoding);
    CountAppend(calls, tail, Releasing);
    CountAppend(calls, tail, Closing);
    CountAppend(calls, tail, Finishing);
    assert (calls + tail)[|calls| + |tail| - 1] == tail[|tail| - 1];
  }

  /** The wrapper does not clear the cache: a second `end` releases the lease again. */
  lemma EndTwiceReleasesTwice(s: Strategy, env: Env, c: Cache, d1: Value, e1: Value, d2: Value, e2: Value)
    requires c.poolConnection.Some?
    ensures Count(Run(s, env, c, [End(d1, e1), End(d2, e2)]).calls, Releasing) == 2
  {
    var ops := [End(d1, e1), End(d2, e2)];
    assert ops[..1] == [End(d1, e1)];
    assert ops[..1][..0] == [];
    assert Run(s, env, c, ops[..1][..0]) == Trace(c, [], []);
    assert Run(s, env, c, ops[..1]) == Trace(c, [] + EndCalls(c, d1, e1), []);
    assert Run(s, env, c, ops).calls == [] + EndCalls(c, d1, e1) + EndCalls(c, d2, e2);
    EndCallsCount(c, d1, e1);
    EndCallsCount(c, d2, e2);
    CountAppend([] + EndCalls(c, d1, e1), EndCalls(c, d2, e2), Releasing);
    assert [] + EndCalls(c, d1, e1) == EndCalls(c, d1, e1);
  }
}
