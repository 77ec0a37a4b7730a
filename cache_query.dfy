/**
 * `cache_query`: memoise a query function's results in the module-level
 * dictionary `query_cache`, keyed by the query text alone.
 *
 * The dictionary is passed in and handed back explicitly; the imperative
 * rendering, where it is a field updated in place, is `Decorators.Db`.
 */
module QueryCache {
  import opened Model
  import opened ConnectionScope

  /** What a cached call returns, prints and leaves in the cache. */
  datatype CacheRun = CacheRun(result: Outcome<Value>, events: seq<Event>, cache: map<string, Value>)

  /** `func(conn, query)`: the query goes positionally after the connection. */
  function QueryArgs(query: string): (a: Args)
  {
    Args([TextV(query)], map[])
  }

  /**
   * `cache_query`'s wrapper called as `wrapper(conn, query)` with the cache
   * `cache`; `answer` is what `func(conn, query)` returns or raises if it is
   * called.
   */
  function CacheQuery(cache: map<string, Value>, conn: ConnId, query: string, answer: Outcome<Value>): (r: CacheRun)
    // a hit: the stored value, one printed line, no call, nothing changes
    ensures query in cache ==>
              r.result == Ok(cache[query]) && r.events == [Log(ReturningCachedResult)] && r.cache == cache
    // a miss: the function is called once, with the connection and the query, and nothing is printed
    ensures query !in cache ==> r.events == [Call(conn, QueryArgs(query))] && r.result == answer
    // whatever is returned is what the cache now holds for the query
    ensures r.result.Ok? ==> query in r.cache && r.cache[query] == r.result.value
    // entries are never overwritten or removed, and only the query's entry can be added
    ensures forall k :: k in cache ==> k in r.cache && r.cache[k] == cache[k]
    ensures r.cache.Keys <= cache.Keys + {query}
    // a raising function leaves the cache as it was
    ensures r.result.Err? ==> r.cache == cache
  {
    if query in cache then
      CacheRun(Ok(cache[query]), [Log(ReturningCachedResult)], cache)
    else
      var call := Call(conn, QueryArgs(query));
      match answer
      case Ok(v) => CacheRun(Ok(v), [call], cache[query := v])
      case Err(e) => CacheRun(Err(e), [call], cache)
  }

  /** The lookup and the store depend on the query text only, not on the connection. */
  lemma CacheKeyIgnoresConnection(cache: map<string, Value>, c1: ConnId, c2: ConnId, query: string, answer: Outcome<Value>)
    ensures CacheQuery(cache, c1, query, answer).result == CacheQuery(cache, c2, query, answer).result
    ensures CacheQuery(cache, c1, query, answer).cache == CacheQuery(cache, c2, query, answer).cache
  {
  }

  /**
   * An empty result is stored like any other and answers the next call with
   * the same text: the lookup tests membership, not truthiness.
   */
  lemma EmptyResultIsCached(cache: map<string, Value>, c1: ConnId, c2: ConnId, query: string, later: Outcome<Value>)
    requires query !in cache
    ensures var first := CacheQuery(cache, c1, query, Ok(ListV([])));
            var second := CacheQuery(first.cache, c2, query, later);
            && second.result == Ok(ListV([]))
            && second.events == [Log(ReturningCachedResult)]
  {
  }

  /**
   * `fetch_users_with_cache`: `with_db_connection` outside `cache_query`.
   * `refused` is the error `connect` raises, if it does.
   */
  function FetchUsersWithCache(cache: map<string, Value>, c: ConnId, refused: Option<Error>,
                               query: string, answer: Outcome<Value>): (r: CacheRun)
  {
    match refused
    case Some(e) => CacheRun(Err(e), [], cache)
    case None =>
      var inner := CacheQuery(cache, c, query, answer);
      var s := Scoped(c, None, Run(inner.result, inner.events));
      CacheRun(s.result, s.events, inner.cache)
  }

  /**
   * A refused connection raises before the cache is consulted. Otherwise the
   * connection is opened and closed even when the cache answers, and inside
   * it the cached call behaves as on its own: same result, same cache, and
   * no call of the function on a hit.
   */
  lemma FetchUsersWithCacheCloses(cache: map<string, Value>, c: ConnId, refused: Option<Error>,
                                  query: string, answer: Outcome<Value>)
    ensures var r := FetchUsersWithCache(cache, c, refused, query, answer);
            && (refused.Some? ==> r == CacheRun(Err(refused.value), [], cache))
            && (refused.None? ==> Bracketed(r.events, c))
            && (refused.None? ==> r.result == CacheQuery(cache, c, query, answer).result)
            && (refused.None? ==> r.cache == CacheQuery(cache, c, query, answer).cache)
            && (refused.None? && query in cache ==> Call(c, QueryArgs(query)) !in r.events)
  {
    var inner := CacheQuery(cache, c, query, answer);
    assert Untouched(inner.events, c);
    ScopedFrame(c, refused, Run(inner.result, inner.events));
    ScopedBrackets(c, Run(inner.result, inner.events));
  }

  /** One call of a sequence: the connection handed in, the query, and what `func` would do. */
  datatype Request = Request(conn: ConnId, query: string, answer: Outcome<Value>)

  /** The cache after the first `m` requests of `rs`, starting from `cache`. */
  function CacheBefore(cache: map<string, Value>, rs: seq<Request>, m: nat): (before: map<string, Value>)
    requires m <= |rs|
  {
    if m == 0 then cache
    else CacheQuery(CacheBefore(cache, rs, m - 1), rs[m - 1].conn, rs[m - 1].query, rs[m - 1].answer).cache
  }

  /** What the request numbered `m` does, given the cache the earlier ones left. */
  function Serve(cache: map<string, Value>, rs: seq<Request>, m: nat): (r: CacheRun)
    requires m < |rs|
  {
    CacheQuery(CacheBefore(cache, rs, m), rs[m].conn, rs[m].query, rs[m].answer)
  }

  /** Over any sequence of calls, an entry once present stays, unchanged. */
  lemma {:induction false} EntriesPersist(cache: map<string, Value>, rs: seq<Request>, m: nat, n: nat)
    requires m <= n <= |rs|
    ensures forall k :: k in CacheBefore(cache, rs, m) ==>
              k in CacheBefore(cache, rs, n) && CacheBefore(cache, rs, n)[k] == CacheBefore(cache, rs, m)[k]
    decreases n - m
  {
    if m < n {
      EntriesPersist(cache, rs, m, n - 1);
    }
  }

  /**
   * Once a call with some query text has returned, every later call with the
   * same text gets that first value back from the cache, and the function is
   * not called again for it.
   */
  lemma FirstStoredWins(cache: map<string, Value>, rs: seq<Request>, i: nat, j: nat)
    requires i < j < |rs|
    requires rs[i].query == rs[j].query
    requires Serve(cache, rs, i).result.Ok?
    ensures Serve(cache, rs, j).result == Serve(cache, rs, i).result
    ensures Serve(cache, rs, j).events == [Log(ReturningCachedResult)]
  {
    EntriesPersist(cache, rs, i + 1, j);
  }

  /** A call with a text that is already cached never reaches the function. */
  lemma {:induction false} CachedNeverCalls(cache: map<string, Value>, rs: seq<Request>, m: nat)
    requires m < |rs|
    requires rs[m].query in cache
    ensures Calls(Serve(cache, rs, m).events) == 0
  {
    EntriesPersist(cache, rs, 0, m);
    assert Serve(cache, rs, m).events == [Log(ReturningCachedResult)];
    CountsCons(Log(ReturningCachedResult), []);
  }
}
