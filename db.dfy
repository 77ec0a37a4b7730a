/**
 * The decorators as the program runs them: one object holds everything the
 * decorated calls change in place — the trace of what they did, the set of
 * open connections, the module-level `query_cache`, and how many connects,
 * calls and commits have happened so far, which is how the next answer of
 * the outside world is chosen.
 *
 * Every decorator method is proved to do exactly what the pure model of its
 * file says: its result is the model's result and the trace grows by the
 * model's events.
 */
module Decorators {
  import opened Model
  import ConnectionScope
  import Transactions
  import Retry
  import QueryCache
  import QueryLog

  class Db {
    /** What `sqlite3.connect`, the undecorated functions and `commit` do, in order. */
    const world: World

    /** Everything observable so far, in order. */
    var trace: seq<Event>
    /** Connections opened and not yet closed. */
    var open: set<ConnId>
    /** `query_cache`. */
    var queryCache: map<string, Value>
    /** How many connects, calls of undecorated functions (and executes), and commits happened. */
    var connects: nat
    var calls: nat
    var commits: nat

    /** Every open handle was handed out by an earlier connect. */
    ghost predicate Valid()
      reads this`open, this`connects
    {
      forall c :: c in open ==> c < connects
    }

    /** A fresh program: nothing done yet, no connection open, an empty cache. */
    constructor (world: World)
      ensures this.world == world
      ensures trace == [] && open == {} && queryCache == map[]
      ensures connects == 0 && calls == 0 && commits == 0
      ensures Valid()
    {
      this.world := world;
      trace := [];
      open := {};
      queryCache := map[];
      connects := 0;
      calls := 0;
      commits := 0;
    }

    // ---------------------------------------------------------------------
    // The outside world: the sqlite driver, the undecorated functions, print
    // and sleep. Each performs one action and records it.
    // ---------------------------------------------------------------------

    /** `sqlite3.connect(DB_NAME)`: the n-th connect yields handle n, or raises. */
    method Connect() returns (r: Outcome<ConnId>)
      requires Valid()
      modifies this`connects, this`open, this`trace
      ensures Valid()
      ensures connects == old(connects) + 1
      ensures world.connectError(old(connects)).Some? ==>
                r == Err(world.connectError(old(connects)).value) && open == old(open) && trace == old(trace)
      ensures world.connectError(old(connects)).None? ==>
                && r == Ok(old(connects))
                && old(connects) !in old(open)
                && open == old(open) + {old(connects)}
                && trace == old(trace) + [Open(old(connects))]
    {
      var c := connects;
      connects := connects + 1;
      match world.connectError(c)
      case Some(e) =>
        r := Err(e);
      case None =>
        open := open + {c};
        trace := trace + [Open(c)];
        r := Ok(c);
    }

    /** `conn.close()` */
    method Close(c: ConnId)
      modifies this`open, this`trace
      ensures open == old(open) - {c}
      ensures trace == old(trace) + [Event.Close(c)]
    {
      open := open - {c};
      trace := trace + [Event.Close(c)];
    }

    /** `func(conn, *args, **kwargs)` for an undecorated function. */
    method Invoke(c: ConnId, args: Args) returns (r: Outcome<Value>)
      modifies this`calls, this`trace
      ensures r == world.answer(old(calls))
      ensures calls == old(calls) + 1
      ensures trace == old(trace) + [Call(c, args)]
    {
      r := world.answer(calls);
      calls := calls + 1;
      trace := trace + [Call(c, args)];
    }

    /** `cursor.execute(sql)` followed by `cursor.fetchall()`. */
    method Execute(c: ConnId, sql: string) returns (r: Outcome<Value>)
      modifies this`calls, this`trace
      ensures r == world.answer(old(calls))
      ensures calls == old(calls) + 1
      ensures trace == old(trace) + [Event.Execute(c, sql)]
    {
      r := world.answer(calls);
      calls := calls + 1;
      trace := trace + [Event.Execute(c, sql)];
    }

    /** `conn.commit()`: the error it raises, if any. */
    method Commit(c: ConnId) returns (err: Option<Error>)
      modifies this`commits, this`trace
      ensures err == world.commitError(old(commits))
      ensures commits == old(commits) + 1
      ensures trace == old(trace) + [Event.Commit(c)]
    {
      err := world.commitError(commits);
      commits := commits + 1;
      trace := trace + [Event.Commit(c)];
    }

    /** `conn.rollback()` */
    method Rollback(c: ConnId)
      modifies this`trace
      ensures trace == old(trace) + [Event.Rollback(c)]
    {
      trace := trace + [Event.Rollback(c)];
    }

    /** `print(...)` */
    method Print(line: LogLine)
      modifies this`trace
      ensures trace == old(trace) + [Log(line)]
    {
      trace := trace + [Log(line)];
    }

    /** `time.sleep(delay)` */
    method Pause()
      modifies this`trace
      ensures trace == old(trace) + [Sleep]
    {
      trace := trace + [Sleep];
    }

    // ---------------------------------------------------------------------
    // with_db_connection
    // ---------------------------------------------------------------------

    /** A function decorated with `with_db_connection` alone, such as `get_user_by_id`. */
    method WithDbConnection(args: Args) returns (r: Outcome<Value>)
      requires Valid()
      modifies this`connects, this`open, this`trace, this`calls
      ensures Valid()
      ensures var s := ConnectionScope.WithDbConnection(old(connects), world.connectError(old(connects)),
                                                        world.answer(old(calls)), args);
              r == s.result && trace == old(trace) + s.events
      // the connection it opened is closed again, on every path
      ensures open == old(open) && connects == old(connects) + 1
      ensures calls == old(calls) + (if world.connectError(old(connects)).None? then 1 else 0)
    {
      var conn := Connect();
      if conn.Err? {
        return Err(conn.error);
      }
      var c := conn.value;
      r := Invoke(c, args);
      Close(c);
    }

    // ---------------------------------------------------------------------
    // transactional
    // ---------------------------------------------------------------------

    /** `transactional`'s wrapper on the connection `conn` it is handed. */
    method Transactional(conn: ConnId, args: Args) returns (r: Outcome<Value>)
      modifies this`calls, this`commits, this`trace
      ensures var s := Transactions.Transactional(conn, args, world.answer(old(calls)), world.commitError(old(commits)));
              r == s.result && trace == old(trace) + s.events
      ensures calls == old(calls) + 1
      ensures commits == old(commits) + (if world.answer(old(calls)).Ok? then 1 else 0)
    {
      var result := Invoke(conn, args);
      var failure: Error;
      if result.Ok? {
        var err := Commit(conn);
        if err.None? {
          return result;
        }
        failure := err.value;
      } else {
        failure := result.error;
      }
      Rollback(conn);
      Print(TransactionFailed(failure));
      r := Err(failure);
    }

    /** `update_user_email`: `with_db_connection` outside `transactional`. */
    method UpdateUserEmail(args: Args) returns (r: Outcome<Value>)
      requires Valid()
      modifies this`connects, this`open, this`trace, this`calls, this`commits
      ensures Valid()
      ensures var s := Transactions.UpdateUserEmail(old(connects), world.connectError(old(connects)), args,
                                                    world.answer(old(calls)), world.commitError(old(commits)));
              r == s.result && trace == old(trace) + s.events
      ensures open == old(open) && connects == old(connects) + 1
      ensures calls == old(calls) + (if world.connectError(old(connects)).None? then 1 else 0)
      ensures commits == old(commits) +
                (if world.connectError(old(connects)).None? && world.answer(old(calls)).Ok? then 1 else 0)
    {
      var conn := Connect();
      if conn.Err? {
        return Err(conn.error);
      }
      var c := conn.value;
      r := Transactional(c, args);
      Close(c);
    }

    // ---------------------------------------------------------------------
    // retry_on_failure
    // ---------------------------------------------------------------------

    /**
     * One iteration of `retry_on_failure`'s loop: the `try` around the call,
     * and on an exception the printed failure and, unless this was the last
     * attempt, the sleep.
     */
    method Attempt(retries: int, attempt: nat, conn: ConnId, args: Args) returns (r: Outcome<Value>)
      modifies this`calls, this`trace
      ensures r == world.answer(old(calls)) && calls == old(calls) + 1
      ensures r.Ok? ==> trace == old(trace) + [Call(conn, args)]
      ensures r.Err? ==> trace == old(trace) + Retry.FailedAttempt(retries, attempt, r.error, conn, args)
    {
      r := Invoke(conn, args);
      if r.Err? {
        Print(AttemptFailed(attempt + 1, r.error));
        if attempt < retries - 1 {
          Pause();
        }
      }
    }

    /**
     * `retry_on_failure(retries, delay)`'s wrapper around a function handed
     * `conn` first: the `for attempt in range(retries)` loop.
     */
    method RetryOnFailure(retries: int, conn: ConnId, args: Args) returns (r: Outcome<Value>)
      modifies this`calls, this`trace
      ensures var s := Retry.RetryOnFailure(retries, Shift(world.answer, old(calls)), conn, args);
              r == s.result && trace == old(trace) + s.events && calls == old(calls) + Calls(s.events)
    {
      ghost var outs := Shift(world.answer, old(calls));
      ghost var whole := Retry.RetryOnFailure(retries, outs, conn, args);
      ghost var done: seq<Event> := [];
      var attempt: nat := 0;
      while attempt < retries
        invariant calls == old(calls) + attempt
        invariant trace == old(trace) + done && Calls(done) == attempt
        invariant done + Retry.RetryFrom(retries, attempt, outs, conn, args).events == whole.events
        invariant Retry.RetryFrom(retries, attempt, outs, conn, args).result == whole.result
        decreases retries - attempt
      {
        var o := Attempt(retries, attempt, conn, args);
        assert o == outs(attempt);
        Retry.NextAttempt(retries, attempt, outs, conn, args, done, whole);
        if o.Ok? {
          return o;
        }
        done := done + Retry.FailedAttempt(retries, attempt, o.error, conn, args);
        attempt := attempt + 1;
      }
      assert done + [] == done;
      r := Err(AllAttemptsFailed);
    }

    /** `fetch_users_with_retry`: `with_db_connection` outside `retry_on_failure(retries=3, delay=1)`. */
    method FetchUsersWithRetry() returns (r: Outcome<Value>)
      requires Valid()
      modifies this`connects, this`open, this`trace, this`calls
      ensures Valid()
      ensures var s := Retry.FetchUsersWithRetry(old(connects), world.connectError(old(connects)),
                                                 Shift(world.answer, old(calls)));
              r == s.result && trace == old(trace) + s.events && calls == old(calls) + Calls(s.events)
      ensures open == old(open) && connects == old(connects) + 1
    {
      var conn := Connect();
      if conn.Err? {
        return Err(conn.error);
      }
      var c := conn.value;
      r := RetryOnFailure(Retry.FetchRetries, c, Retry.NoArgs);
      Close(c);
      ConnectionScope.ScopedCalls(c, None, Retry.RetryOnFailure(Retry.FetchRetries, Shift(world.answer, old(calls)), c, Retry.NoArgs));
    }

    // ---------------------------------------------------------------------
    // cache_query
    // ---------------------------------------------------------------------

    /** `cache_query`'s wrapper, called as `wrapper(conn, query)`. */
    method CacheQuery(conn: ConnId, query: string) returns (r: Outcome<Value>)
      modifies this`queryCache, this`calls, this`trace
      ensures var s := QueryCache.CacheQuery(old(queryCache), conn, query, world.answer(old(calls)));
              r == s.result && trace == old(trace) + s.events && queryCache == s.cache
      ensures calls == old(calls) + (if query in old(queryCache) then 0 else 1)
    {
      if query in queryCache {
        Print(ReturningCachedResult);
        return Ok(queryCache[query]);
      }
      r := Invoke(conn, QueryCache.QueryArgs(query));
      if r.Ok? {
        queryCache := queryCache[query := r.value];
      }
    }

    /** `fetch_users_with_cache(query=...)`: `with_db_connection` outside `cache_query`. */
    method FetchUsersWithCache(query: string) returns (r: Outcome<Value>)
      requires Valid()
      modifies this`connects, this`open, this`trace, this`calls, this`queryCache
      ensures Valid()
      ensures var s := QueryCache.FetchUsersWithCache(old(queryCache), old(connects), world.connectError(old(connects)),
                                                      query, world.answer(old(calls)));
              r == s.result && trace == old(trace) + s.events && queryCache == s.cache
      ensures open == old(open) && connects == old(connects) + 1
      ensures calls == old(calls) + (if world.connectError(old(connects)).None? && query !in old(queryCache) then 1 else 0)
    {
      var conn := Connect();
      if conn.Err? {
        return Err(conn.error);
      }
      var c := conn.value;
      r := CacheQuery(c, query);
      Close(c);
    }

    // ---------------------------------------------------------------------
    // log_queries and fetch_all_users
    // ---------------------------------------------------------------------

    /**
     * The body of `fetch_all_users(query)`. On an exception from execute or
     * commit the connection stays open: it is leaked.
     */
    method FetchAllUsers(query: string) returns (r: Outcome<Value>)
      requires Valid()
      modifies this`connects, this`open, this`trace, this`calls, this`commits
      ensures Valid()
      ensures var s := QueryLog.FetchAllUsers(old(connects), world.connectError(old(connects)), query,
                                              world.answer(old(calls)), world.commitError(old(commits)));
              r == s.result && trace == old(trace) + s.events
      ensures connects == old(connects) + 1
      ensures calls == old(calls) + (if world.connectError(old(connects)).None? then 1 else 0)
      ensures commits == old(commits) +
                (if world.connectError(old(connects)).None? && world.answer(old(calls)).Ok? && QueryLog.IsWrite(query)
                 then 1 else 0)
      // the connection is released on the normal path and leaked on an exception after connecting
      ensures world.connectError(old(connects)).Some? ==> open == old(open)
      ensures r.Ok? ==> open == old(open)
      ensures r.Err? && world.connectError(old(connects)).None? ==> open == old(open) + {old(connects)}
    {
      var conn := Connect();
      if conn.Err? {
        return Err(conn.error);
      }
      var c := conn.value;
      var rows := Execute(c, query);
      if rows.Err? {
        return rows;
      }
      if QueryLog.IsWrite(query) {
        var err := Commit(c);
        if err.Some? {
          return Err(err.value);
        }
      }
      Close(c);
      r := rows;
    }

    /**
     * `fetch_all_users` decorated with `log_queries`, called with `args`: the
     * line is printed, then Python binds the arguments and runs the body.
     */
    method LoggedFetchAllUsers(args: Args) returns (r: Outcome<Value>)
      requires Valid()
      modifies this`connects, this`open, this`trace, this`calls, this`commits
      ensures Valid()
      ensures var s := QueryLog.LogQueries(args,
                         QueryLog.CallFetchAllUsers(old(connects), world.connectError(old(connects)), args,
                                                    world.answer(old(calls)), world.commitError(old(commits))));
              r == s.result && trace == old(trace) + s.events
      // a call that does not bind raises after the line and changes nothing else
      ensures QueryLog.BindQuery(args).None? ==>
                connects == old(connects) && calls == old(calls) && commits == old(commits) && open == old(open)
      ensures QueryLog.BindQuery(args).Some? ==> connects == old(connects) + 1
      ensures calls == old(calls) +
                (if QueryLog.BindQuery(args).Some? && QueryLog.BindQuery(args).value.TextV?
                    && world.connectError(old(connects)).None? then 1 else 0)
      ensures commits == old(commits) +
                (if QueryLog.BindQuery(args).Some? && QueryLog.BindQuery(args).value.TextV?
                    && world.connectError(old(connects)).None? && world.answer(old(calls)).Ok?
                    && QueryLog.IsWrite(QueryLog.BindQuery(args).value.s) then 1 else 0)
      // the connection is released on the normal path and leaked on an exception after connecting
      ensures r.Ok? ==> open == old(open)
      ensures r.Err? && QueryLog.BindQuery(args).Some? && world.connectError(old(connects)).None? ==>
                open == old(open) + {old(connects)}
      ensures world.connectError(old(connects)).Some? ==> open == old(open)
    {
      Print(ExecutingQuery(QueryLog.QueryOf(args)));
      var bound := QueryLog.BindQuery(args);
      if bound.None? {
        return Err(QueryLog.BindingError);
      }
      if bound.value.TextV? {
        r := FetchAllUsers(bound.value.s);
        return;
      }
      var conn := Connect();
      if conn.Err? {
        return Err(conn.error);
      }
      r := Err(QueryLog.NotStatementError);
    }
  }
}
