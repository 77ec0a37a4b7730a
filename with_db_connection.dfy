/**
 * `with_db_connection`: open one connection, hand it to the wrapped
 * function as its first argument, and close it in `finally`.
 */
module ConnectionScope {
  import opened Model

  /**
   * The connection `c` brackets the trace: it is opened first, closed last,
   * and opened and closed exactly once.
   */
  ghost predicate Bracketed(t: seq<Event>, c: ConnId)
  {
    && |t| >= 2
    && t[0] == Open(c)
    && t[|t| - 1] == Close(c)
    && multiset(t)[Open(c)] == 1
    && multiset(t)[Close(c)] == 1
  }

  /** The trace neither opens nor closes `c`. */
  ghost predicate Untouched(t: seq<Event>, c: ConnId)
  {
    Open(c) !in t && Close(c) !in t
  }

  /**
   * The frame the decorator puts around a wrapped call: `conn =
   * sqlite3.connect(...)` outside the `try`, then the call, then
   * `conn.close()` in `finally`. `refused` is the error `connect` raises, if
   * it does; `inner` is what the wrapped call does with the connection.
   */
  function Scoped(c: ConnId, refused: Option<Error>, inner: Run): (r: Run)
  {
    match refused
    case Some(e) => Run(Err(e), [])
    case None => Run(inner.result, [Open(c)] + inner.events + [Close(c)])
  }

  /**
   * What the frame guarantees: a refused connection raises before anything
   * happens; otherwise the call's outcome passes through unchanged, between
   * an open and a close of `c`, and nothing else is added.
   */
  lemma ScopedFrame(c: ConnId, refused: Option<Error>, inner: Run)
    ensures var r := Scoped(c, refused, inner);
            && (refused.Some? ==> r == Run(Err(refused.value), []))
            && (refused.None? ==> r.result == inner.result)
            && (refused.None? ==> |r.events| >= 2 && r.events[1..|r.events| - 1] == inner.events)
            && (forall e :: e in r.events ==> e in inner.events || e == Open(c) || e == Close(c))
  {
    if refused.None? {
      var t := [Open(c)] + inner.events + [Close(c)];
      assert t[1..|t| - 1] == inner.events;
    }
  }

  /**
   * The frame itself calls nothing: the calls are those of the wrapped call,
   * and there are none when the connection is refused.
   */
  lemma ScopedCalls(c: ConnId, refused: Option<Error>, inner: Run)
    ensures Calls(Scoped(c, refused, inner).events) == (if refused.None? then Calls(inner.events) else 0)
  {
    if refused.None? {
      CallsAppend([Open(c)] + inner.events, [Close(c)]);
      CallsAppend([Open(c)], inner.events);
    }
  }

  /**
   * When the wrapped call neither opens nor closes the decorator's
   * connection, the connection is opened first, closed last, and each
   * exactly once: the frame adds one open and one close and nothing else.
   */
  lemma ScopedBrackets(c: ConnId, inner: Run)
    requires Untouched(inner.events, c)
    ensures Bracketed(Scoped(c, None, inner).events, c)
    ensures multiset(Scoped(c, None, inner).events) == multiset(inner.events) + multiset{Open(c), Close(c)}
  {
  }

  /**
   * `with_db_connection` around an undecorated function whose outcome, when
   * called, is `answer`; `c` is the handle `connect` yields.
   */
  function WithDbConnection(c: ConnId, refused: Option<Error>, answer: Outcome<Value>, args: Args): (r: Run)
  {
    Scoped(c, refused, Run(answer, [Call(c, args)]))
  }

  /**
   * Opening fails: the function is not called and nothing is closed.
   * Otherwise one connection is opened before and closed after the call, on
   * both exits; the function is called once, with the connection first and
   * then the caller's arguments; its value is returned, its exception
   * re-raised, unchanged.
   */
  lemma WithDbConnectionCloses(c: ConnId, refused: Option<Error>, answer: Outcome<Value>, args: Args)
    ensures var r := WithDbConnection(c, refused, answer, args);
            && (refused.Some? ==> r.result == Err(refused.value) && r.events == [])
            && (refused.None? ==> Bracketed(r.events, c))
            && (refused.None? ==> multiset(r.events)[Call(c, args)] == 1)
            && (forall e :: e in r.events && e.Call? ==> e == Call(c, args))
            && (refused.None? ==> r.result == answer)
  {
    ScopedFrame(c, refused, Run(answer, [Call(c, args)]));
    if refused.None? {
      ScopedBrackets(c, Run(answer, [Call(c, args)]));
    }
  }
}
