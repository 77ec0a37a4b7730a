/**
 * `transactional`: run the wrapped function on the connection it is given,
 * commit if it returns, roll back, print and re-raise if anything in the
 * `try` raises (the commit included).
 */
module Transactions {
  import opened Model
  import opened ConnectionScope

  /**
   * `transactional`'s wrapper called as `wrapper(conn, *args, **kwargs)`.
   * `answer` is what the wrapped function returns or raises; `commitError`
   * what `conn.commit()` raises, if anything.
   */
  function Transactional(conn: ConnId, args: Args, answer: Outcome<Value>, commitError: Option<Error>): (r: Run)
  {
    var call := Call(conn, args);
    match answer
    case Err(e) =>
      Run(Err(e), [call, Rollback(conn), Log(TransactionFailed(e))])
    case Ok(v) =>
      match commitError
      case None => Run(Ok(v), [call, Commit(conn)])
      case Some(e) => Run(Err(e), [call, Commit(conn), Rollback(conn), Log(TransactionFailed(e))])
  }

  /**
   * The wrapped function is called first, with the connection it received
   * first, and nothing happens but that call, the commit, the rollback and
   * the printed line. The function's value is returned only when both it and
   * the commit succeeded; a failure, the commit's included, is rolled back,
   * then printed, then re-raised unchanged.
   */
  lemma TransactionalCommitsOrRollsBack(conn: ConnId, args: Args, answer: Outcome<Value>, commitError: Option<Error>)
    ensures var r := Transactional(conn, args, answer, commitError);
            && |r.events| >= 2 && r.events[0] == Call(conn, args)
            && (forall e :: e in r.events ==> e == Call(conn, args) || e == Commit(conn) || e == Rollback(conn) || e.Log?)
            && (r.result.Ok? <==> answer.Ok? && commitError.None?)
            && (r.result.Ok? ==> r.result == answer && r.events == [Call(conn, args), Commit(conn)])
            && (r.result.Err? ==> |r.events| >= 3 && r.events[|r.events| - 2] == Rollback(conn))
            && (r.result.Err? ==> r.events[|r.events| - 1] == Log(TransactionFailed(r.result.error)))
            && (answer.Err? ==> r.result == answer)
            && (answer.Ok? && commitError.Some? ==>
                  r.result == Err(commitError.value) && r.events[1] == Commit(conn) && r.events[2] == Rollback(conn))
  {
  }

  /**
   * Each step happens at most once: one call, a commit exactly when the
   * function returned, and on failure exactly one rollback and one printed
   * line.
   */
  lemma TransactionalOnce(conn: ConnId, args: Args, answer: Outcome<Value>, commitError: Option<Error>)
    ensures var r := Transactional(conn, args, answer, commitError);
            && multiset(r.events)[Call(conn, args)] == 1
            && multiset(r.events)[Commit(conn)] == (if answer.Ok? then 1 else 0)
            && multiset(r.events)[Rollback(conn)] == (if r.result.Ok? then 0 else 1)
            && (forall e :: e in r.events && e.Log? ==> r.result.Err? && e == Log(TransactionFailed(r.result.error)))
            && (r.result.Err? ==> multiset(r.events)[Log(TransactionFailed(r.result.error))] == 1)
  {
    var call := Call(conn, args);
    match answer
    case Err(e) =>
      assert Transactional(conn, args, answer, commitError).events == [call, Rollback(conn), Log(TransactionFailed(e))];
    case Ok(v) =>
      match commitError
      case None =>
        assert Transactional(conn, args, answer, commitError).events == [call, Commit(conn)];
      case Some(e) =>
        assert Transactional(conn, args, answer, commitError).events
            == [call, Commit(conn), Rollback(conn), Log(TransactionFailed(e))];
  }

  /**
   * `update_user_email`: `with_db_connection` around `transactional` around
   * the undecorated update.
   */
  function UpdateUserEmail(c: ConnId, refused: Option<Error>, args: Args,
                           answer: Outcome<Value>, commitError: Option<Error>): (r: Run)
  {
    Scoped(c, refused, Transactional(c, args, answer, commitError))
  }

  /**
   * A refused connection raises before anything happens. Otherwise the
   * update's value comes back only when the update and its commit both
   * succeeded, the update's or the commit's exception comes back unchanged,
   * and one connection is opened first and closed exactly once,
   * last, after the commit or the rollback, on every path.
   */
  lemma UpdateUserEmailCloses(c: ConnId, refused: Option<Error>, args: Args,
                              answer: Outcome<Value>, commitError: Option<Error>)
    ensures var r := UpdateUserEmail(c, refused, args, answer, commitError);
            && (refused.Some? ==> r == Run(Err(refused.value), []))
            && (refused.None? ==> (r.result.Ok? <==> answer.Ok? && commitError.None?))
            && (refused.None? && r.result.Ok? ==> r.result == answer)
            && (refused.None? && answer.Err? ==> r.result == answer)
            && (refused.None? && answer.Ok? && commitError.Some? ==> r.result == Err(commitError.value))
            && (refused.None? ==> Bracketed(r.events, c))
  {
    var inner := Transactional(c, args, answer, commitError);
    TransactionalCommitsOrRollsBack(c, args, answer, commitError);
    assert Untouched(inner.events, c);
    ScopedFrame(c, refused, inner);
    ScopedBrackets(c, inner);
  }

  /**
   * Inside the connection, the update is committed exactly when it returned,
   * and every failure is rolled back exactly once.
   */
  lemma UpdateUserEmailSettles(c: ConnId, refused: Option<Error>, args: Args,
                               answer: Outcome<Value>, commitError: Option<Error>)
    requires refused.None?
    ensures var r := UpdateUserEmail(c, refused, args, answer, commitError);
            && multiset(r.events)[Commit(c)] == (if answer.Ok? then 1 else 0)
            && multiset(r.events)[Rollback(c)] == (if r.result.Ok? then 0 else 1)
  {
    TransactionalOnce(c, args, answer, commitError);
  }
}
