/**
 * Shared vocabulary of the decorator model: Python values and call
 * arguments, exceptions, the events a decorated call makes observable, and
 * the outside world (the sqlite driver and the undecorated database
 * functions) as streams of outcomes.
 */
module Model {

  /** A connection handle; the n-th `sqlite3.connect` of a run yields handle n. */
  type ConnId = nat

  datatype Option<+T> = None | Some(value: T)

  /** A raised Python exception: its class name and its `str()`. */
  datatype Error = Error(kind: string, message: string)

  /** The exception `retry_on_failure` raises once every attempt has failed. */
  const AllAttemptsFailed := Error("Exception", "All attempts failed")

  /** What a Python call does: returns a value or raises. */
  datatype Outcome<+T> = Ok(value: T) | Err(error: Error)

  /** The Python values that flow through the decorators. */
  datatype Value =
    | NoneV
    | IntV(i: int)
    | TextV(s: string)
    | ConnV(conn: ConnId)
    | TupleV(items: seq<Value>)
    | ListV(items: seq<Value>)

  /** `*args, **kwargs` of a call. */
  datatype Args = Args(positional: seq<Value>, keywords: map<string, Value>)

  /** The lines the decorators print, without their formatting and timestamp. */
  datatype LogLine =
    | ExecutingQuery(query: Value)              // "[ts] Executing query: {query}"
    | AttemptFailed(attempt: nat, error: Error) // "Attempt {attempt} failed: {e}"
    | TransactionFailed(error: Error)           // "Transaction failed: {e}"
    | ReturningCachedResult                     // "Returning cached result"

  /** Everything a decorated call makes observable, in the order it happens. */
  datatype Event =
    | Open(conn: ConnId)               // sqlite3.connect succeeded
    | Close(conn: ConnId)              // conn.close()
    | Call(conn: ConnId, args: Args)   // func(conn, *args, **kwargs): the undecorated function is invoked
    | Execute(conn: ConnId, sql: string) // cursor.execute(sql) and fetchall()
    | Commit(conn: ConnId)             // conn.commit() is attempted
    | Rollback(conn: ConnId)           // conn.rollback()
    | Sleep                            // time.sleep(delay)
    | Log(line: LogLine)               // print(...)

  /** A result together with the events that produced it. */
  datatype Run = Run(result: Outcome<Value>, events: seq<Event>)

  /**
   * The outside world, as streams indexed by how many such actions came
   * before: whether the n-th connect fails, what the n-th piece of database
   * work (a call of an undecorated function, or an execute) returns or
   * raises, and whether the n-th commit fails.
   */
  datatype World = World(
    connectError: nat -> Option<Error>,
    answer: nat -> Outcome<Value>,
    commitError: nat -> Option<Error>)

  /** The stream `f` seen from position `base` on. */
  function Shift<T>(f: nat -> T, base: nat): (g: nat -> T)
  {
    (i: nat) => f(base + i)
  }

  /** The printed lines of a trace, in order. */
  function Logs(t: seq<Event>): (r: seq<LogLine>)
  {
    if t == [] then []
    else (if t[0].Log? then [t[0].line] else []) + Logs(t[1..])
  }

  /** The number of invocations of undecorated functions in a trace. */
  function Calls(t: seq<Event>): (n: nat)
  {
    if t == [] then 0
    else (if t[0].Call? then 1 else 0) + Calls(t[1..])
  }

  lemma {:induction false} CallsAppend(a: seq<Event>, b: seq<Event>)
    ensures Calls(a + b) == Calls(a) + Calls(b)
  {
    if a != [] {
      assert (a + b)[1..] == a[1..] + b;
      CallsAppend(a[1..], b);
    } else {
      assert a + b == b;
    }
  }

  /** The number of `time.sleep` calls in a trace. */
  function Sleeps(t: seq<Event>): (n: nat)
  {
    if t == [] then 0
    else (if t[0] == Sleep then 1 else 0) + Sleeps(t[1..])
  }

  /** One step of `Logs`, `Calls` and `Sleeps`: what the first event contributes. */
  lemma CountsCons(e: Event, t: seq<Event>)
    ensures Logs([e] + t) == (if e.Log? then [e.line] else []) + Logs(t)
    ensures Calls([e] + t) == (if e.Call? then 1 else 0) + Calls(t)
    ensures Sleeps([e] + t) == (if e == Sleep then 1 else 0) + Sleeps(t)
  {
    assert ([e] + t)[1..] == t;
  }
}
