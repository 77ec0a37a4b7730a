/**
 * `retry_on_failure(retries, delay)`: call the wrapped function up to
 * `retries` times, printing each failure and sleeping between attempts, and
 * raise a fresh "All attempts failed" once the attempts are used up.
 *
 * The attempts' outcomes are the stream `outs`: `outs(i)` is what the
 * wrapped function returns or raises on the attempt numbered `i` by
 * `range(retries)`. In this repository the retried function is always handed
 * the connection first, so each attempt is the event `Call(c, args)`.
 */
module Retry {
  import opened Model
  import opened ConnectionScope

  /** The events one attempt may leave: the call, its failure line, a sleep. */
  predicate RetryEvent(e: Event, c: ConnId, args: Args)
  {
    e == Call(c, args) || e == Sleep || (e.Log? && e.line.AttemptFailed?)
  }

  /**
   * One failed attempt of the loop: the call, its failure line, and a sleep
   * unless it was the last attempt.
   */
  function FailedAttempt(retries: int, attempt: nat, e: Error, c: ConnId, args: Args): (t: seq<Event>)
  {
    [Call(c, args), Log(AttemptFailed(attempt + 1, e))] + (if attempt < retries - 1 then [Sleep] else [])
  }

  /** A failed attempt calls the function exactly once. */
  lemma FailedAttemptCalls(retries: int, attempt: nat, e: Error, c: ConnId, args: Args, before: seq<Event>)
    ensures Calls(before + FailedAttempt(retries, attempt, e, c, args)) == Calls(before) + 1
  {
    var line := Log(AttemptFailed(attempt + 1, e));
    var tail := if attempt < retries - 1 then [Sleep] else [];
    assert FailedAttempt(retries, attempt, e, c, args) == [Call(c, args)] + ([line] + tail);
    CallsAppend(before, FailedAttempt(retries, attempt, e, c, args));
    CountsCons(Call(c, args), [line] + tail);
    CountsCons(line, tail);
    if tail != [] {
      CountsCons(Sleep, []);
      assert tail == [Sleep] + [];
    }
  }

  /**
   * The loop from iteration `attempt` of `range(retries)` on. A negative
   * `retries` gives an empty range, like Python's.
   */
  function RetryFrom(retries: int, attempt: nat, outs: nat -> Outcome<Value>, c: ConnId, args: Args): (r: Run)
    decreases if attempt < retries then retries - attempt else 0
    // only a fresh "All attempts failed" is raised; the last failure is dropped
    ensures r.result.Err? ==> r.result.error == AllAttemptsFailed
    // a returned value is the value of some remaining attempt
    ensures r.result.Ok? ==> attempt < retries
  {
    if retries <= attempt then Run(Err(AllAttemptsFailed), [])
    else
      match outs(attempt)
      case Ok(v) => Run(Ok(v), [Call(c, args)])
      case Err(e) =>
        var rest := RetryFrom(retries, attempt + 1, outs, c, args);
        Run(rest.result, FailedAttempt(retries, attempt, e, c, args) + rest.events)
  }

  /** The loop leaves nothing but calls, sleeps and failure lines. */
  lemma {:induction false} OnlyAttemptEvents(retries: int, attempt: nat, outs: nat -> Outcome<Value>, c: ConnId, args: Args)
    ensures forall e :: e in RetryFrom(retries, attempt, outs, c, args).events ==> RetryEvent(e, c, args)
    decreases if attempt < retries then retries - attempt else 0
  {
    if attempt < retries && outs(attempt).Err? {
      OnlyAttemptEvents(retries, attempt + 1, outs, c, args);
    }
  }

  /** The wrapper: the whole loop, from the first attempt. */
  function RetryOnFailure(retries: int, outs: nat -> Outcome<Value>, c: ConnId, args: Args): (r: Run)
  {
    RetryFrom(retries, 0, outs, c, args)
  }

  /**
   * With no attempts the function is never called and the error is raised at
   * once; whatever is raised is the fresh error, and only calls, sleeps and
   * failure lines happen.
   */
  lemma RetryOnFailureRaises(retries: int, outs: nat -> Outcome<Value>, c: ConnId, args: Args)
    ensures var r := RetryOnFailure(retries, outs, c, args);
            && (retries <= 0 ==> r == Run(Err(AllAttemptsFailed), []))
            && (r.result.Err? ==> r.result.error == AllAttemptsFailed)
            && (forall e :: e in r.events ==> RetryEvent(e, c, args))
  {
    OnlyAttemptEvents(retries, 0, outs, c, args);
  }

  /** "Attempt i failed: e" for every failing attempt in `[lo, hi)`, in order. */
  function FailureLines(outs: nat -> Outcome<Value>, lo: nat, hi: nat): (r: seq<LogLine>)
    decreases if lo < hi then hi - lo else 0
    ensures |r| <= if lo < hi then hi - lo else 0
    ensures forall l :: l in r ==> l.AttemptFailed? && lo < l.attempt <= hi
  {
    if hi <= lo then []
    else
      (match outs(lo)
       case Err(e) => [AttemptFailed(lo + 1, e)]
       case Ok(_) => [])
      + FailureLines(outs, lo + 1, hi)
  }

  /**
   * A failed attempt that is not the last: call, print, sleep, then the rest
   * of the loop; it adds one call, one sleep and its own failure line.
   */
  lemma FailedAttemptStep(retries: int, attempt: nat, outs: nat -> Outcome<Value>, c: ConnId, args: Args)
    requires attempt < retries - 1 && outs(attempt).Err?
    ensures var r := RetryFrom(retries, attempt, outs, c, args);
            var rest := RetryFrom(retries, attempt + 1, outs, c, args);
            && r.result == rest.result
            && r.events == [Call(c, args), Log(AttemptFailed(attempt + 1, outs(attempt).error)), Sleep] + rest.events
            && Calls(r.events) == 1 + Calls(rest.events)
            && Sleeps(r.events) == 1 + Sleeps(rest.events)
            && Logs(r.events) == [AttemptFailed(attempt + 1, outs(attempt).error)] + Logs(rest.events)
  {
    var rest := RetryFrom(retries, attempt + 1, outs, c, args).events;
    var line := Log(AttemptFailed(attempt + 1, outs(attempt).error));
    assert FailedAttempt(retries, attempt, outs(attempt).error, c, args) == [Call(c, args), line, Sleep];
    assert [Call(c, args), line, Sleep] + rest == [Call(c, args)] + ([line] + ([Sleep] + rest));
    CountsCons(Sleep, rest);
    CountsCons(line, [Sleep] + rest);
    CountsCons(Call(c, args), [line] + ([Sleep] + rest));
  }

  /**
   * Attempts `attempt .. k-1` fail and attempt `k` succeeds: the function is
   * called once per attempt up to `k` and no more, it sleeps after every
   * failure, every failure is printed in order, and attempt `k`'s value is
   * returned.
   */
  lemma {:induction false} SucceedsFrom(retries: int, attempt: nat, k: nat, outs: nat -> Outcome<Value>, c: ConnId, args: Args)
    requires attempt <= k < retries
    requires outs(k).Ok?
    requires forall j :: attempt <= j < k ==> outs(j).Err?
    ensures RetryFrom(retries, attempt, outs, c, args).result == outs(k)
    ensures Calls(RetryFrom(retries, attempt, outs, c, args).events) == k - attempt + 1
    ensures Sleeps(RetryFrom(retries, attempt, outs, c, args).events) == k - attempt
    ensures Logs(RetryFrom(retries, attempt, outs, c, args).events) == FailureLines(outs, attempt, k)
    decreases k - attempt
  {
    var r := RetryFrom(retries, attempt, outs, c, args);
    if attempt == k {
      assert r.events == [Call(c, args)];
      CountsCons(Call(c, args), []);
    } else {
      var e := outs(attempt).error;
      SucceedsFrom(retries, attempt + 1, k, outs, c, args);
      FailedAttemptStep(retries, attempt, outs, c, args);
      assert FailureLines(outs, attempt, k) == [AttemptFailed(attempt + 1, e)] + FailureLines(outs, attempt + 1, k);
    }
  }

  /**
   * Every attempt from `attempt` on fails: the function is called once per
   * remaining attempt, it sleeps between attempts but not after the last, all
   * failures are printed in order, and "All attempts failed" is raised.
   */
  lemma {:induction false} AllFailFrom(retries: int, attempt: nat, outs: nat -> Outcome<Value>, c: ConnId, args: Args)
    requires attempt < retries
    requires forall j :: attempt <= j < retries ==> outs(j).Err?
    ensures RetryFrom(retries, attempt, outs, c, args).result == Err(AllAttemptsFailed)
    ensures Calls(RetryFrom(retries, attempt, outs, c, args).events) == retries - attempt
    ensures Sleeps(RetryFrom(retries, attempt, outs, c, args).events) == retries - attempt - 1
    ensures Logs(RetryFrom(retries, attempt, outs, c, args).events) == FailureLines(outs, attempt, retries)
    decreases retries - attempt
  {
    var r := RetryFrom(retries, attempt, outs, c, args);
    var e := outs(attempt).error;
    var line := Log(AttemptFailed(attempt + 1, e));
    if attempt == retries - 1 {
      assert r.events == FailedAttempt(retries, attempt, e, c, args) + [];
      assert r.events == [Call(c, args)] + ([line] + []);
      CountsCons(line, []);
      CountsCons(Call(c, args), [line]);
    } else {
      AllFailFrom(retries, attempt + 1, outs, c, args);
      FailedAttemptStep(retries, attempt, outs, c, args);
      assert FailureLines(outs, attempt, retries) == [AttemptFailed(attempt + 1, e)] + FailureLines(outs, attempt + 1, retries);
    }
  }

  /**
   * Success on attempt `k` (counting from 1, as the printed lines do) after
   * `k - 1` failures: `k` calls, `k - 1` sleeps, `k - 1` failure lines, and
   * attempt `k`'s value.
   */
  lemma RetrySucceedsOnAttempt(retries: int, k: nat, outs: nat -> Outcome<Value>, c: ConnId, args: Args)
    requires 1 <= k <= retries
    requires outs(k - 1).Ok?
    requires forall j :: 0 <= j < k - 1 ==> outs(j).Err?
    ensures RetryOnFailure(retries, outs, c, args).result == outs(k - 1)
    ensures Calls(RetryOnFailure(retries, outs, c, args).events) == k
    ensures Sleeps(RetryOnFailure(retries, outs, c, args).events) == k - 1
    ensures Logs(RetryOnFailure(retries, outs, c, args).events) == FailureLines(outs, 0, k - 1)
  {
    SucceedsFrom(retries, 0, k - 1, outs, c, args);
  }

  /**
   * Every attempt fails: exactly `retries` calls and `retries - 1` sleeps,
   * one failure line per attempt numbered 1 to `retries`, then the fresh
   * error.
   */
  lemma RetryAllAttemptsFail(retries: int, outs: nat -> Outcome<Value>, c: ConnId, args: Args)
    requires 1 <= retries
    requires forall j :: 0 <= j < retries ==> outs(j).Err?
    ensures RetryOnFailure(retries, outs, c, args).result == Err(AllAttemptsFailed)
    ensures Calls(RetryOnFailure(retries, outs, c, args).events) == retries
    ensures Sleeps(RetryOnFailure(retries, outs, c, args).events) == retries - 1
    ensures Logs(RetryOnFailure(retries, outs, c, args).events) == FailureLines(outs, 0, retries)
  {
    AllFailFrom(retries, 0, outs, c, args);
  }

  /** The failure lines of attempts that all fail number them consecutively. */
  lemma {:induction false} FailureLinesNumbered(outs: nat -> Outcome<Value>, lo: nat, hi: nat)
    requires lo <= hi
    requires forall j :: lo <= j < hi ==> outs(j).Err?
    ensures |FailureLines(outs, lo, hi)| == hi - lo
    ensures forall i :: 0 <= i < hi - lo ==>
              FailureLines(outs, lo, hi)[i] == AttemptFailed(lo + i + 1, outs(lo + i).error)
    decreases hi - lo
  {
    if lo < hi {
      assert outs(lo).Err?;
      FailureLinesNumbered(outs, lo + 1, hi);
      var l := FailureLines(outs, lo, hi);
      assert l == [AttemptFailed(lo + 1, outs(lo).error)] + FailureLines(outs, lo + 1, hi);
    }
  }

  /** A value is returned exactly when some attempt within the budget succeeds. */
  lemma {:induction false} RetryOutcomeFrom(retries: int, attempt: nat, outs: nat -> Outcome<Value>, c: ConnId, args: Args)
    ensures RetryFrom(retries, attempt, outs, c, args).result.Ok? <==>
              exists k :: attempt <= k < retries && outs(k).Ok?
    decreases if attempt < retries then retries - attempt else 0
  {
    if attempt < retries {
      RetryOutcomeFrom(retries, attempt + 1, outs, c, args);
      if outs(attempt).Err? {
        assert (exists k :: attempt <= k < retries && outs(k).Ok?) ==>
               (exists k :: attempt + 1 <= k < retries && outs(k).Ok?) by {
          if k :| attempt <= k < retries && outs(k).Ok? {
            assert attempt + 1 <= k;
          }
        }
      }
    }
  }

  lemma RetryOutcome(retries: int, outs: nat -> Outcome<Value>, c: ConnId, args: Args)
    ensures RetryOnFailure(retries, outs, c, args).result.Ok? <==>
              exists k :: 0 <= k < retries && outs(k).Ok?
  {
    RetryOutcomeFrom(retries, 0, outs, c, args);
  }

  /** Every sleep in `t` follows a printed line and precedes a call. */
  ghost predicate SleepsBetween(t: seq<Event>, c: ConnId, args: Args)
  {
    forall i :: 0 <= i < |t| && t[i] == Sleep ==>
      0 < i < |t| - 1 && t[i - 1].Log? && t[i + 1] == Call(c, args)
  }

  /**
   * Sleeps sit only between attempts: each follows a failure line and is
   * followed by the next call.
   */
  lemma {:induction false} SleepBetweenAttempts(retries: int, attempt: nat, outs: nat -> Outcome<Value>, c: ConnId, args: Args)
    ensures SleepsBetween(RetryFrom(retries, attempt, outs, c, args).events, c, args)
    decreases if attempt < retries then retries - attempt else 0
  {
    if attempt < retries - 1 && outs(attempt).Err? {
      var t := RetryFrom(retries, attempt, outs, c, args).events;
      var rest := RetryFrom(retries, attempt + 1, outs, c, args).events;
      SleepBetweenAttempts(retries, attempt + 1, outs, c, args);
      assert t == [Call(c, args), Log(AttemptFailed(attempt + 1, outs(attempt).error)), Sleep] + rest;
      assert rest[0] == Call(c, args) by {
        assert outs(attempt + 1).Ok? || outs(attempt + 1).Err?;
      }
      forall i | 0 <= i < |t| && t[i] == Sleep
        ensures 0 < i < |t| - 1 && t[i - 1].Log? && t[i + 1] == Call(c, args)
      {
        if 3 <= i {
          assert rest[i - 3] == Sleep;
          assert 0 < i - 3 < |rest| - 1;
          assert t[i - 1] == rest[i - 4] && t[i + 1] == rest[i - 2];
        }
      }
    }
  }

  /**
   * `fetch_users_with_retry`: `with_db_connection` outside
   * `retry_on_failure(retries=3, delay=1)`, the function called with the
   * connection alone.
   */
  const FetchRetries := 3

  /** `fetch_users_with_retry` takes nothing beyond the connection. */
  const NoArgs := Args([], map[])

  function FetchUsersWithRetry(c: ConnId, refused: Option<Error>, outs: nat -> Outcome<Value>): (r: Run)
  {
    Scoped(c, refused, RetryOnFailure(FetchRetries, outs, c, NoArgs))
  }

  /**
   * A refused connection raises before any attempt. Otherwise one connection
   * serves all attempts, opened once before them and closed once after, and
   * only the fresh error is raised.
   */
  lemma FetchUsersWithRetryCloses(c: ConnId, refused: Option<Error>, outs: nat -> Outcome<Value>)
    ensures var r := FetchUsersWithRetry(c, refused, outs);
            && (refused.Some? ==> r == Run(Err(refused.value), []))
            && (refused.None? ==> Bracketed(r.events, c))
            && (refused.None? && r.result.Err? ==> r.result.error == AllAttemptsFailed)
  {
    var inner := RetryOnFailure(FetchRetries, outs, c, NoArgs);
    RetryOnFailureRaises(FetchRetries, outs, c, NoArgs);
    assert Untouched(inner.events, c);
    ScopedFrame(c, refused, inner);
    ScopedBrackets(c, inner);
  }

  /** Every attempt is handed the one connection the call opened. */
  lemma RetriesShareConnection(c: ConnId, refused: Option<Error>, outs: nat -> Outcome<Value>)
    ensures forall e :: e in FetchUsersWithRetry(c, refused, outs).events && e.Call? ==> e == Call(c, NoArgs)
  {
    var inner := RetryOnFailure(FetchRetries, outs, c, NoArgs);
    RetryOnFailureRaises(FetchRetries, outs, c, NoArgs);
    ScopedFrame(c, refused, inner);
  }

  /**
   * One iteration of the loop: a success returns at once with a single call;
   * a failure leaves its events and hands over to the next iteration.
   */
  lemma AttemptStep(retries: int, attempt: nat, outs: nat -> Outcome<Value>, c: ConnId, args: Args)
    requires attempt < retries
    ensures var r := RetryFrom(retries, attempt, outs, c, args);
            var rest := RetryFrom(retries, attempt + 1, outs, c, args);
            && (outs(attempt).Ok? ==> r == Run(outs(attempt), [Call(c, args)]))
            && (outs(attempt).Err? ==>
                  r.result == rest.result
                  && r.events == FailedAttempt(retries, attempt, outs(attempt).error, c, args) + rest.events)
  {
  }

  /**
   * The loop's bookkeeping across one attempt: what has happened so far
   * followed by what the remaining iterations do is always the whole run. A
   * success completes the run with its call; a failure adds its events and
   * leaves the rest to the next iteration. Either way one more call is made.
   */
  lemma NextAttempt(retries: int, attempt: nat, outs: nat -> Outcome<Value>, c: ConnId, args: Args,
                    done: seq<Event>, whole: Run)
    requires attempt < retries
    requires done + RetryFrom(retries, attempt, outs, c, args).events == whole.events
    requires RetryFrom(retries, attempt, outs, c, args).result == whole.result
    ensures outs(attempt).Ok? ==>
              && done + [Call(c, args)] == whole.events
              && whole.result == outs(attempt)
              && Calls(done + [Call(c, args)]) == Calls(done) + 1
    ensures outs(attempt).Err? ==>
              var next := done + FailedAttempt(retries, attempt, outs(attempt).error, c, args);
              var rest := RetryFrom(retries, attempt + 1, outs, c, args);
              && next + rest.events == whole.events
              && rest.result == whole.result
              && Calls(next) == Calls(done) + 1
  {
    AttemptStep(retries, attempt, outs, c, args);
    if outs(attempt).Ok? {
      CallsAppend(done, [Call(c, args)]);
      CountsCons(Call(c, args), []);
    } else {
      var step := FailedAttempt(retries, attempt, outs(attempt).error, c, args);
      var rest := RetryFrom(retries, attempt + 1, outs, c, args).events;
      assert (done + step) + rest == done + (step + rest);
      FailedAttemptCalls(retries, attempt, outs(attempt).error, c, args, done);
    }
  }
}
