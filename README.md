# Database decorators, modelled and verified in Dafny

This project models the five Python decorators of `python-decorators-0x01`
and the functions they decorate:

- `log_queries` and `fetch_all_users`, in module `QueryLog`, `log_queries.dfy`;
- `with_db_connection`, in `ConnectionScope`, `with_db_connection.dfy`;
- `transactional`, in `Transactions`, `transactional.dfy`;
- `retry_on_failure`, in `Retry`, `retry_on_failure.dfy`;
- `cache_query`, in `QueryCache`, `cache_query.dfy`.

Everything a decorated call does that can be observed is an `Event` in a trace:

- a connection opened or closed;
- a call of the undecorated function with the connection it was handed;
- an `execute`;
- a commit or rollback attempt;
- a sleep;
- a printed line.

The sqlite driver and the undecorated functions are an outside `World`: three
streams that say whether the n-th `connect` raises, what the n-th call returns
or raises, and whether the n-th `commit` raises (`model.dfy`).

Each decorator file has two layers:

- Pure functions that compute the result and the events of one wrapped call.
  These are `Scoped`, `Transactional`, `RetryFrom`, `CacheQuery`,
  `FetchAllUsers` and so on. Lemmas state what the source promises about them.
- The program as it runs: the class `Decorators.Db` (`db.dfy`). It holds the
  trace, the set of open connections and `query_cache`, and it updates them in
  place. It has one method per wrapper and per decorated function. Each method's
  postcondition ties its result and its trace to the pure functions and says
  what the open connections, the cache and the connect, call and commit
  counters become. The
  `retry_on_failure` loop is a `while` loop whose invariants carry the
  equivalence.

Decorator stacking is modelled as written. `with_db_connection` is outermost in
every composition, so a connection is opened even on a cache hit, and all
retry attempts share one connection.

Behaviour of the code worth knowing:

- `retry_on_failure` raises a fresh `Exception("All attempts failed")` and drops the last failure.
- `retries <= 0` is accepted and raises at once.
- A failing `commit` is followed by a rollback, so that path has a commit attempt and a rollback.
- A cache hit still pays for a connection.
- The cache has no lock.

## Model

| member | source | states |
|---|---|---|
| `ConnectionScope.ScopedFrame` | python-decorators-0x01/1-with_db_connection.py:20-25 | a refused `connect` raises before anything is called or closed; otherwise the wrapped call's events sit between one open and one close, and its value or exception passes through unchanged |
| `ConnectionScope.ScopedBrackets` | python-decorators-0x01/1-with_db_connection.py:21-25 | the connection is opened first and closed last, each exactly once, and the frame adds nothing else |
| `ConnectionScope.WithDbConnectionCloses` | python-decorators-0x01/1-with_db_connection.py:20-25 | the function is called exactly once, with the opened connection first and the caller's arguments after it; its outcome is returned unchanged; one open and one close bracket the call on both exits; no call happens when `connect` raises |
| `Decorators.Db.WithDbConnection` | python-decorators-0x01/1-with_db_connection.py:20-25 | the running wrapper (as for `get_user_by_id`) returns what the model returns, appends exactly the model's events, and leaves the set of open connections as it found it |
| `Transactions.TransactionalCommitsOrRollsBack` | python-decorators-0x01/2-transactional.py:35-43 | the function is called first with the connection; the value is returned iff the function and the commit both succeed, after the commit; any failure (the commit's included) is rolled back, printed, then re-raised unchanged |
| `Transactions.TransactionalOnce` | python-decorators-0x01/2-transactional.py:36-43 | one call; a commit exactly when the function returned; on failure exactly one rollback and one "Transaction failed" line, none on success |
| `Decorators.Db.Transactional` | python-decorators-0x01/2-transactional.py:35-43 | the running wrapper returns the model's result and appends the model's events; one call, and one commit attempt exactly when the function returned |
| `Transactions.UpdateUserEmailCloses` | python-decorators-0x01/2-transactional.py:46-48 | under `with_db_connection`, the value comes back iff the update and its commit succeed, the update's or the commit's exception comes back unchanged, and the connection is opened first and closed once, last, after commit or rollback |
| `Transactions.UpdateUserEmailSettles` | python-decorators-0x01/2-transactional.py:36-43 | inside the connection, exactly one commit iff the update returned and exactly one rollback iff the call fails |
| `Decorators.Db.UpdateUserEmail` | python-decorators-0x01/2-transactional.py:46-48 | the running composition matches the model and leaves no connection open; one connect, one call once connected, and one commit attempt exactly when the update returned |
| `Retry.RetryFrom` | python-decorators-0x01/3-retry_on_failure.py:43-50 | from any iteration on, the only exception raised is the fresh "All attempts failed", and a value is returned only while attempts remain |
| `Retry.OnlyAttemptEvents` | python-decorators-0x01/3-retry_on_failure.py:43-49 | the loop does nothing but calls, "Attempt i failed" lines and sleeps |
| `Retry.RetryOnFailureRaises` | python-decorators-0x01/3-retry_on_failure.py:43-50 | with `retries <= 0` nothing is called and the error is raised at once; whatever is raised is the fresh error |
| `Retry.SucceedsFrom` | python-decorators-0x01/3-retry_on_failure.py:43-49 | if attempts before `k` fail and attempt `k` succeeds: `k`'s value, one call per attempt up to `k`, one sleep per failure, the failure lines in order |
| `Retry.AllFailFrom` | python-decorators-0x01/3-retry_on_failure.py:43-50 | if every remaining attempt fails: one call each, a sleep between attempts but not after the last, every failure printed, then "All attempts failed" |
| `Retry.RetrySucceedsOnAttempt` | python-decorators-0x01/3-retry_on_failure.py:43-49 | success on attempt `k` (1-based) gives exactly `k` calls, `k - 1` sleeps, `k - 1` failure lines and attempt `k`'s value |
| `Retry.RetryAllAttemptsFail` | python-decorators-0x01/3-retry_on_failure.py:43-50 | if all fail: exactly `retries` calls, `retries - 1` sleeps, one line per attempt, then the fresh error |
| `Retry.FailureLinesNumbered` | python-decorators-0x01/3-retry_on_failure.py:47 | failure lines number the attempts consecutively, from `attempt + 1`, with each attempt's own exception |
| `Retry.RetryOutcome` | python-decorators-0x01/3-retry_on_failure.py:43-50 | a value is returned iff some attempt within the budget succeeds |
| `Retry.RetryOutcomeFrom` | python-decorators-0x01/3-retry_on_failure.py:43-50 | from any iteration on, a value is returned iff some remaining attempt succeeds |
| `Retry.SleepBetweenAttempts` | python-decorators-0x01/3-retry_on_failure.py:47-49 | every sleep follows a printed failure and precedes the next call, so there is never a sleep after the last attempt |
| `Retry.FailedAttemptStep` | python-decorators-0x01/3-retry_on_failure.py:44-49 | a failure that is not on the last attempt adds one call, one line and one sleep, and the loop continues |
| `Retry.NextAttempt` | python-decorators-0x01/3-retry_on_failure.py:43-49 | the loop's invariant: the events so far, followed by what the remaining iterations do, are the whole run; one call per iteration |
| `Retry.FailedAttemptCalls` | python-decorators-0x01/3-retry_on_failure.py:45-49 | a failed attempt calls the function exactly once |
| `Decorators.Db.Attempt` | python-decorators-0x01/3-retry_on_failure.py:44-49 | one iteration of the loop: one call, then on an exception the failure line and a sleep unless it was the last attempt |
| `Decorators.Db.RetryOnFailure` | python-decorators-0x01/3-retry_on_failure.py:42-50 | the running `for` loop returns the model's result, appends the model's events, and calls the function as often as the model does |
| `Retry.FetchUsersWithRetryCloses` | python-decorators-0x01/3-retry_on_failure.py:54-56 | one connection is opened once before all attempts and closed once after them; a refused connection raises before any attempt |
| `Retry.RetriesShareConnection` | python-decorators-0x01/3-retry_on_failure.py:54-56 | every attempt is handed the same connection |
| `Decorators.Db.FetchUsersWithRetry` | python-decorators-0x01/3-retry_on_failure.py:54-56 | the running composition matches the model, closes the connection it opened, and calls the function as often as the model's trace does |
| `QueryCache.CacheQuery` | python-decorators-0x01/4-cache_query.py:39-45 | a hit returns the stored value with one "Returning cached result" line, no call and no change; a miss calls once with the connection and query and returns its outcome; a returned value is what the cache now holds; entries are never overwritten or removed, only `query` can be added, and a raising call leaves the cache unchanged |
| `QueryCache.CacheKeyIgnoresConnection` | python-decorators-0x01/4-cache_query.py:40-44 | the result and the cache do not depend on the connection |
| `QueryCache.EmptyResultIsCached` | python-decorators-0x01/4-cache_query.py:40-45 | an empty result is stored and answers the next call with that text, because the lookup tests membership |
| `QueryCache.EntriesPersist` | python-decorators-0x01/4-cache_query.py:40-44 | over any sequence of calls, an entry once present stays, unchanged |
| `QueryCache.FirstStoredWins` | python-decorators-0x01/4-cache_query.py:40-45 | after a call with some text has returned, every later call with that text gets the first value back, and the function is not called |
| `QueryCache.CachedNeverCalls` | python-decorators-0x01/4-cache_query.py:40-42 | a call whose text is already cached makes no call of the function |
| `Decorators.Db.CacheQuery` | python-decorators-0x01/4-cache_query.py:39-45 | the running wrapper matches the model, updates `query_cache` in place to the model's cache, and calls the function only on a miss |
| `QueryCache.FetchUsersWithCacheCloses` | python-decorators-0x01/4-cache_query.py:52-54 | a connection is opened and closed even when the cache answers; inside it, the cached call has the same result and cache as on its own, and no call on a hit |
| `Decorators.Db.FetchUsersWithCache` | python-decorators-0x01/4-cache_query.py:52-57 | the running composition matches the model, updates `query_cache` to the model's cache, closes its connection, and calls the function exactly when connected on a miss |
| `Decorators.Db.constructor` | python-decorators-0x01/4-cache_query.py:6 | a fresh program: empty `query_cache`, no connection open, nothing done |
| `QueryLog.PrintedQueryIsBound` | python-decorators-0x01/0-log_queries.py:16-23 | whenever a call binds to `fetch_all_users(query)`, the printed query is the value bound to `query`, passed by position or as `query=...` |
| `QueryLog.PositionalQueryWins` | python-decorators-0x01/0-log_queries.py:23 | a positional argument wins over a different `query=` keyword |
| `QueryLog.LogQueriesFirst` | python-decorators-0x01/0-log_queries.py:21-32 | exactly one "Executing query" line naming the query, printed before the call, and the call's outcome unchanged |
| `QueryLog.LStripSpec` | python-decorators-0x01/0-log_queries.py:47 | left-stripping removes a leading run of whitespace and nothing more |
| `QueryLog.RStripSpec` | python-decorators-0x01/0-log_queries.py:47 | right-stripping removes a trailing run of whitespace and nothing more |
| `QueryLog.StripSpec` | python-decorators-0x01/0-log_queries.py:47 | a stripped text neither starts nor ends with whitespace, and is empty iff the text was all whitespace |
| `QueryLog.LowerSpec` | python-decorators-0x01/0-log_queries.py:47 | lowering keeps the length and maps each character |
| `QueryLog.StartsWithAnyMeaning` | python-decorators-0x01/0-log_queries.py:47 | `startswith` on a tuple holds iff one of the prefixes is a prefix |
| `QueryLog.IsWriteMeaning` | python-decorators-0x01/0-log_queries.py:47 | a statement writes iff, stripped and lower-cased, it begins with a write keyword |
| `QueryLog.StripLower` | python-decorators-0x01/0-log_queries.py:47 | stripping and lowering commute |
| `QueryLog.IsWriteIgnoresCase` | python-decorators-0x01/0-log_queries.py:47 | the write test ignores letter case |
| `QueryLog.IsWriteIgnoresLeadingSpace` | python-decorators-0x01/0-log_queries.py:47 | the write test ignores leading whitespace |
| `QueryLog.SelectNeverWrites` | python-decorators-0x01/0-log_queries.py:47 | a SELECT, in any case and after any whitespace, is never committed |
| `QueryLog.KeywordWrites` | python-decorators-0x01/0-log_queries.py:47 | text starting with a write keyword writes, whatever follows |
| `QueryLog.WriteKeywordCommits` | python-decorators-0x01/0-log_queries.py:47 | a keyword in any case, after any whitespace and followed by anything (so "DELETED" counts), makes the statement a write |
| `QueryLog.FetchAllUsersLeaks` | python-decorators-0x01/0-log_queries.py:40-52 | execute runs on the new connection; a commit happens iff the statement ran and is a write; execute and commit exceptions propagate unchanged; the connection is closed only on the normal path |
| `QueryLog.FetchAllUsersExecutes` | python-decorators-0x01/0-log_queries.py:44 | the body executes no statement but its own `query` |
| `QueryLog.LoggedQueryIsExecuted` | python-decorators-0x01/0-log_queries.py:16-32 | the line is printed first on every path; any statement executed is the one the line names; a call that does not bind raises after the line and does nothing else; a non-string `query` raises after connecting and leaves the connection open |
| `Decorators.Db.FetchAllUsers` | python-decorators-0x01/0-log_queries.py:40-52 | the running function matches the model; one connect, one execute once connected, a commit attempt exactly when the execute returned and the statement writes; it releases its connection when it returns, leaks it when execute or commit raises, and opens none when connect raises |
| `Decorators.Db.LoggedFetchAllUsers` | python-decorators-0x01/0-log_queries.py:20-32 | the logged call prints the query, then binds the arguments and runs `fetch_all_users`, matching the model; an unbound call changes nothing but the trace; the counters and the open connections become what the body makes them, so the leak on an exception is kept |
| `Decorators.Db.Connect` | python-decorators-0x01/1-with_db_connection.py:21 | `sqlite3.connect`: the n-th connect yields a fresh handle n and opens it, or raises and changes nothing but the connect counter |
| `Decorators.Db.Close` | python-decorators-0x01/1-with_db_connection.py:25 | `conn.close()`: the handle is no longer open and a close is recorded |
| `Decorators.Db.Invoke` | python-decorators-0x01/1-with_db_connection.py:23 | a call of the undecorated function gets the next answer of the world and is recorded with its connection and arguments |
| `Decorators.Db.Execute` | python-decorators-0x01/0-log_queries.py:44 | `cursor.execute(query)` with its `fetchall`: the next answer of the world, recorded with the statement |
| `Decorators.Db.Commit` | python-decorators-0x01/2-transactional.py:37 | `conn.commit()`: the next commit outcome of the world, recorded as an attempt |
| `Decorators.Db.Rollback` | python-decorators-0x01/2-transactional.py:41 | `conn.rollback()` is recorded |
| `Decorators.Db.Print` | python-decorators-0x01/2-transactional.py:42 | a printed line is recorded |
| `Decorators.Db.Pause` | python-decorators-0x01/3-retry_on_failure.py:49 | `time.sleep(delay)` is recorded |
| `ConnectionScope.ScopedCalls` | python-decorators-0x01/1-with_db_connection.py:20-25 | the connection frame calls nothing itself: the calls are the wrapped call's, and none when `connect` raises |

The specification functions `ConnectionScope.Scoped`, `Transactions.Transactional`,
`QueryLog.QueryOf`, `QueryLog.BindQuery`, `QueryLog.IsWrite`,
`QueryLog.FetchAllUsers` and `QueryLog.CallFetchAllUsers` have no row of their
own; they follow their source lines branch for branch, and the lemma rows
above state what each one computes: `ScopedFrame` and `ScopedBrackets` for `Scoped`,
`TransactionalCommitsOrRollsBack` for `Transactional`, `PrintedQueryIsBound` for
`QueryOf` and `BindQuery`, `IsWriteMeaning` for `IsWrite`, `FetchAllUsersLeaks`
for `FetchAllUsers`, and `LoggedQueryIsExecuted` for `CallFetchAllUsers`.

## Left out

- The sqlite driver. `connect`, `execute` with `fetchall`, and `commit` are events whose outcomes come from the `World` streams; `rollback` is an event that always succeeds; the database itself is not modelled.
- `execute` and `fetchall` in `fetch_all_users` are one event with one outcome. A `fetchall` that raises after a successful execute and commit is not distinguished.
- A rollback or a close that itself raises is not modelled. These always succeed here.
- `time.sleep` is a `Sleep` event. The `delay` value and wall-clock time are left out.
- Printed lines are structured `LogLine` values. The `datetime.now()` timestamp and the exact text formatting are left out.
- Exceptions are one `Error(kind, message)` value. The class hierarchy is not modelled, so the difference between `except Exception` and exceptions outside it is not captured.
- The text of the `TypeError`s raised when a call does not bind to `fetch_all_users(query)` or when `cursor.execute` gets a non-string is not modelled; both are `Error("TypeError", "")`.
- Concurrency is not modelled; calls run one at a time. The source has no lock around `query_cache`.
- The SQL text of `get_user_by_id` and `update_user_email` and the `__main__` demo blocks are not modelled. The undecorated functions are oracle calls.
- `QueryLog.Lower`: lower-cases the ASCII letters only. Python's `str.lower` also lowers other Unicode letters. This cannot change the write test for a statement that begins with an ASCII keyword, but a non-ASCII character that lowers to an ASCII letter is not covered.
- QueryCache.EntriesPersist, QueryCache.FirstStoredWins: results are immutable values here. The source stores the list object `func` returned and hands that same object to every later hit, so a caller that mutates a returned result changes what later hits return. This aliasing is not modelled; both lemmas hold for the dictionary's entries, and for the results only while no caller mutates one.
