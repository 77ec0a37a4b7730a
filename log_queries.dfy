/**
 * `log_queries` and the function it decorates, `fetch_all_users`: the query
 * is picked from the call's arguments and printed before the call, and
 * `fetch_all_users` commits only statements that write.
 */
module QueryLog {
  import opened Model
  import opened ConnectionScope

  /** The query `log_queries` prints: `args[0] if args else kwargs.get("query", "")`. */
  function QueryOf(args: Args): (q: Value)
  {
    if |args.positional| > 0 then args.positional[0]
    else if "query" in args.keywords then args.keywords["query"]
    else TextV("")
  }

  /**
   * How Python binds a call `fetch_all_users(*args, **kwargs)` to the one
   * parameter `query`: the value bound, or `None` when the call raises a
   * `TypeError` (no argument, more than one, an unknown keyword, or `query`
   * given both by position and by keyword).
   */
  function BindQuery(args: Args): (q: Option<Value>)
  {
    if |args.positional| > 1 then None
    else if |args.positional| == 1 then
      (if args.keywords == map[] then Some(args.positional[0]) else None)
    else if args.keywords.Keys == {"query"} then Some(args.keywords["query"])
    else None
  }

  /**
   * Whenever the call binds, the printed query is the argument
   * `fetch_all_users` receives as `query`, whether it was passed by position
   * or as `query=...`.
   */
  lemma PrintedQueryIsBound(args: Args)
    ensures BindQuery(args).Some? ==> QueryOf(args) == BindQuery(args).value
  {
    if |args.positional| == 0 && args.keywords.Keys == {"query"} {
      assert "query" in args.keywords.Keys;
    }
  }

  /** A positional argument wins over a `query=` keyword. */
  lemma PositionalQueryWins(q: Value, rest: seq<Value>, kw: map<string, Value>)
    requires "query" in kw && kw["query"] != q
    ensures QueryOf(Args([q] + rest, kw)) == q
  {
  }

  /**
   * `log_queries`' wrapper around a call that does `inner`: one line naming
   * the query, printed before the call, then the call with the same
   * arguments and its outcome unchanged.
   */
  function LogQueries(args: Args, inner: Run): (r: Run)
  {
    Run(inner.result, [Log(ExecutingQuery(QueryOf(args)))] + inner.events)
  }

  /**
   * The wrapper prints one line naming the query before the call, then makes
   * the call with the same arguments and passes its outcome on unchanged.
   */
  lemma LogQueriesFirst(args: Args, inner: Run)
    ensures var r := LogQueries(args, inner);
            && r.result == inner.result
            && |r.events| == |inner.events| + 1 && r.events[1..] == inner.events
            && r.events[0] == Log(ExecutingQuery(QueryOf(args)))
            && Logs(r.events) == [ExecutingQuery(QueryOf(args))] + Logs(inner.events)
  {
    var t := [Log(ExecutingQuery(QueryOf(args)))] + inner.events;
    assert t[1..] == inner.events;
    CountsCons(Log(ExecutingQuery(QueryOf(args))), inner.events);
  }

  /** The characters Python's `str.strip()` removes (`str.isspace`). */
  predicate IsSpace(ch: char)
  {
    || ('\t' <= ch <= '\r')
    || ('\U{1c}' <= ch <= '\U{1f}')
    || ch == ' '
    || ch == '\U{85}'
    || ch == '\U{a0}'
    || ch == '\U{1680}'
    || ('\U{2000}' <= ch <= '\U{200a}')
    || ch == '\U{2028}'
    || ch == '\U{2029}'
    || ch == '\U{202f}'
    || ch == '\U{205f}'
    || ch == '\U{3000}'
  }

  /** `s` without its leading whitespace. */
  function LStrip(s: string): (r: string)
  {
    if s != [] && IsSpace(s[0]) then LStrip(s[1..]) else s
  }

  /** Left-stripping drops a run of whitespace from the front and no more. */
  lemma {:induction false} LStripSpec(s: string)
    ensures var r := LStrip(s);
            && |r| <= |s| && r == s[|s| - |r|..]
            && (forall i :: 0 <= i < |s| - |r| ==> IsSpace(s[i]))
            && (r == [] || !IsSpace(r[0]))
  {
    if s != [] && IsSpace(s[0]) {
      var r := LStrip(s[1..]);
      LStripSpec(s[1..]);
      assert s[1..][|s| - 1 - |r|..] == s[|s| - |r|..];
      assert forall i :: 1 <= i < |s| - |r| ==> s[i] == s[1..][i - 1];
    }
  }

  /** `s` without its trailing whitespace. */
  function RStrip(s: string): (r: string)
  {
    if s != [] && IsSpace(s[|s| - 1]) then RStrip(s[..|s| - 1]) else s
  }

  /** Right-stripping drops a run of whitespace from the back and no more. */
  lemma {:induction false} RStripSpec(s: string)
    ensures var r := RStrip(s);
            && |r| <= |s| && r == s[..|r|]
            && (forall i :: |r| <= i < |s| ==> IsSpace(s[i]))
            && (r == [] || !IsSpace(r[|r| - 1]))
  {
    if s != [] && IsSpace(s[|s| - 1]) {
      var r := RStrip(s[..|s| - 1]);
      RStripSpec(s[..|s| - 1]);
      assert s[..|s| - 1][..|r|] == s[..|r|];
      assert forall i :: |r| <= i < |s| - 1 ==> s[i] == s[..|s| - 1][i];
    }
  }

  /** `s.strip()` */
  function Strip(s: string): (r: string)
  {
    RStrip(LStrip(s))
  }

  /**
   * A stripped text neither starts nor ends with whitespace, and it is empty
   * exactly when the text was all whitespace.
   */
  lemma StripSpec(s: string)
    ensures var r := Strip(s);
            && (r == [] || (!IsSpace(r[0]) && !IsSpace(r[|r| - 1])))
            && (r == [] <==> forall i :: 0 <= i < |s| ==> IsSpace(s[i]))
  {
    var l := LStrip(s);
    LStripSpec(s);
    RStripSpec(l);
    var r := RStrip(l);
    assert r != [] ==> r[0] == l[0];
  }

  function LowerChar(ch: char): (r: char)
  {
    if 'A' <= ch <= 'Z' then (ch as int + 32) as char else ch
  }

  /** `s.lower()`, for the ASCII letters. */
  function Lower(s: string): (r: string)
  {
    if s == [] then [] else [LowerChar(s[0])] + Lower(s[1..])
  }

  /** Lowering works character by character and keeps the length. */
  lemma {:induction false} LowerSpec(s: string)
    ensures |Lower(s)| == |s|
    ensures forall i :: 0 <= i < |s| ==> Lower(s)[i] == LowerChar(s[i])
  {
    if s != [] {
      LowerSpec(s[1..]);
    }
  }

  /** The statement prefixes after which `fetch_all_users` commits. */
  const WriteKeywords: seq<string> := ["insert", "update", "delete", "create", "drop", "alter"]

  /** `s.startswith(prefixes)` for a tuple of prefixes. */
  function StartsWithAny(s: string, prefixes: seq<string>): (b: bool)
  {
    prefixes != [] && (prefixes[0] <= s || StartsWithAny(s, prefixes[1..]))
  }

  lemma {:induction false} StartsWithAnyMeaning(s: string, prefixes: seq<string>)
    ensures StartsWithAny(s, prefixes) <==> exists p :: p in prefixes && p <= s
  {
    if prefixes != [] {
      StartsWithAnyMeaning(s, prefixes[1..]);
      if prefixes[0] <= s {
        assert prefixes[0] in prefixes;
      } else {
        assert forall p :: p in prefixes && p <= s ==> p in prefixes[1..];
        assert forall p :: p in prefixes[1..] ==> p in prefixes;
      }
    }
  }

  /** No prefix whose first character differs from the text's can match. */
  lemma {:induction false} FirstLetterMismatch(s: string, prefixes: seq<string>)
    requires |s| > 0
    requires forall i :: 0 <= i < |prefixes| ==> |prefixes[i]| > 0 && prefixes[i][0] != s[0]
    ensures !StartsWithAny(s, prefixes)
  {
    if prefixes != [] {
      assert prefixes[0][0] != s[0];
      FirstLetterMismatch(s, prefixes[1..]);
    }
  }

  /** None of the write keywords begins with an 's'. */
  lemma NoKeywordStartsWithS(s: string)
    requires |s| > 0 && s[0] == 's'
    ensures !StartsWithAny(s, WriteKeywords)
  {
    FirstLetterMismatch(s, WriteKeywords);
  }

  /** `query.strip().lower().startswith(("insert", ..., "alter"))` */
  predicate IsWrite(query: string)
  {
    StartsWithAny(Lower(Strip(query)), WriteKeywords)
  }

  /**
   * A statement writes exactly when, stripped and lower-cased, it begins
   * with one of the keywords.
   */
  lemma IsWriteMeaning(query: string)
    ensures IsWrite(query) <==> exists k :: k in WriteKeywords && k <= Lower(Strip(query))
  {
    StartsWithAnyMeaning(Lower(Strip(query)), WriteKeywords);
  }

  /** Lowering leaves whitespace alone and never produces it. */
  lemma LowerCharSpace(ch: char)
    ensures IsSpace(LowerChar(ch)) == IsSpace(ch)
    ensures IsSpace(ch) ==> LowerChar(ch) == ch
  {
  }

  lemma {:induction false} LStripLower(s: string)
    ensures LStrip(Lower(s)) == Lower(LStrip(s))
  {
    if s != [] {
      var l := Lower(s);
      LowerCharSpace(s[0]);
      assert l[0] == LowerChar(s[0]);
      if IsSpace(s[0]) {
        assert l[1..] == Lower(s[1..]);
        LStripLower(s[1..]);
      }
    }
  }

  lemma {:induction false} RStripLower(s: string)
    ensures RStrip(Lower(s)) == Lower(RStrip(s))
  {
    if s != [] {
      var n := |s| - 1;
      var l := Lower(s);
      LowerSpec(s);
      LowerCharSpace(s[n]);
      assert l[n] == LowerChar(s[n]);
      if IsSpace(s[n]) {
        LowerSpec(s[..n]);
        assert l[..n] == Lower(s[..n]);
        RStripLower(s[..n]);
      }
    }
  }

  /** Stripping and lowering commute: whitespace has no case. */
  lemma StripLower(s: string)
    ensures Strip(Lower(s)) == Lower(Strip(s))
  {
    LStripLower(s);
    RStripLower(LStrip(s));
  }

  /** The write test ignores letter case. */
  lemma IsWriteIgnoresCase(q1: string, q2: string)
    requires Lower(q1) == Lower(q2)
    ensures IsWrite(q1) == IsWrite(q2)
  {
    StripLower(q1);
    StripLower(q2);
  }

  lemma {:induction false} LStripSkipsSpace(ws: string, s: string)
    requires forall i :: 0 <= i < |ws| ==> IsSpace(ws[i])
    ensures LStrip(ws + s) == LStrip(s)
  {
    if ws != [] {
      assert (ws + s)[1..] == ws[1..] + s;
      LStripSkipsSpace(ws[1..], s);
    } else {
      assert ws + s == s;
    }
  }

  /** The write test ignores leading whitespace. */
  lemma IsWriteIgnoresLeadingSpace(ws: string, q: string)
    requires forall i :: 0 <= i < |ws| ==> IsSpace(ws[i])
    ensures IsWrite(ws + q) == IsWrite(q)
  {
    LStripSkipsSpace(ws, q);
  }

  /** A SELECT, in any case and after any whitespace, is never committed. */
  lemma SelectNeverWrites(q: string)
    requires "select" <= Lower(Strip(q))
    ensures !IsWrite(q)
  {
    var s := Lower(Strip(q));
    assert s[0] == 's';
    NoKeywordStartsWithS(s);
  }

  /**
   * Any text that begins with a write keyword, in any letter case and after
   * any whitespace, is committed, whatever follows the keyword: the test is
   * a plain prefix test, so "DELETED" counts as "delete".
   */
  lemma WriteKeywordCommits(ws: string, word: string, rest: string)
    requires forall i :: 0 <= i < |ws| ==> IsSpace(ws[i])
    requires Lower(word) in WriteKeywords
    ensures IsWrite(ws + word + rest)
  {
    var k := Lower(word);
    assert ws + word + rest == ws + (word + rest);
    IsWriteIgnoresLeadingSpace(ws, word + rest);
    LowerAppend(word, rest);
    LowerAppend(k, rest);
    LowerKeyword(k);
    IsWriteIgnoresCase(word + rest, k + rest);
    KeywordWrites(k, rest);
  }

  lemma {:induction false} LowerAppend(a: string, b: string)
    ensures Lower(a + b) == Lower(a) + Lower(b)
  {
    if a == [] {
      assert a + b == b;
    } else {
      assert (a + b)[1..] == a[1..] + b;
      LowerAppend(a[1..], b);
    }
  }

  /** The keywords are spelled in lower-case letters. */
  lemma KeywordLetters(k: string)
    requires k in WriteKeywords
    ensures |k| > 0 && forall i :: 0 <= i < |k| ==> 'a' <= k[i] <= 'z'
  {
  }

  lemma {:induction false} LowerOfLetters(s: string)
    requires forall i :: 0 <= i < |s| ==> 'a' <= s[i] <= 'z'
    ensures Lower(s) == s
  {
    if s != [] {
      LowerOfLetters(s[1..]);
    }
  }

  lemma LowerKeyword(k: string)
    requires k in WriteKeywords
    ensures Lower(k) == k
    ensures |k| > 0 && forall i :: 0 <= i < |k| ==> !IsSpace(k[i])
  {
    KeywordLetters(k);
    LowerOfLetters(k);
    forall i | 0 <= i < |k|
      ensures !IsSpace(k[i])
    {
      LetterIsNoSpace(k[i]);
    }
  }

  lemma LetterIsNoSpace(ch: char)
    requires 'a' <= ch <= 'z'
    ensures !IsSpace(ch)
  {
  }

  /** Right-stripping keeps every character up to the last non-space one. */
  lemma RStripKeeps(t: string, j: int)
    requires 0 <= j < |t| && !IsSpace(t[j])
    ensures j < |RStrip(t)|
  {
  }

  /** A statement that starts with a keyword writes, whatever follows. */
  lemma KeywordWrites(k: string, rest: string)
    requires k in WriteKeywords
    ensures IsWrite(k + rest)
  {
    var t := k + rest;
    LowerKeyword(k);
    assert LStrip(t) == t;
    var r := RStrip(t);
    RStripSpec(t);
    RStripKeeps(t, |k| - 1);
    assert k <= r by {
      assert forall i :: 0 <= i < |k| ==> r[i] == t[i];
    }
    var l := Lower(r);
    LowerSpec(r);
    LowerSpec(k);
    IsWriteMeaning(t);
    assert k <= l by {
      assert forall i :: 0 <= i < |k| ==> l[i] == LowerChar(k[i]) == Lower(k)[i];
    }
  }

  /**
   * The body of `fetch_all_users(query)`: connect, execute, commit when the
   * statement writes, fetch, close. `answer` is what executing and fetching
   * return or raise; `commitError` what `commit` raises, if anything. There
   * is no `try`: when execute or commit raises, `close` is skipped.
   */
  function FetchAllUsers(c: ConnId, refused: Option<Error>, query: string,
                         answer: Outcome<Value>, commitError: Option<Error>): (r: Run)
  {
    match refused
    case Some(e) => Run(Err(e), [])
    case None =>
      var write := IsWrite(query);
      if answer.Err? then
        Run(answer, [Open(c), Execute(c, query)])
      else if write && commitError.Some? then
        Run(Err(commitError.value), [Open(c), Execute(c, query), Commit(c)])
      else if write then
        Run(answer, [Open(c), Execute(c, query), Commit(c), Close(c)])
      else
        Run(answer, [Open(c), Execute(c, query), Close(c)])
  }

  /**
   * A refused connection raises before anything happens. Otherwise the
   * statement is executed on the new connection, a commit is issued exactly
   * when it ran and is a write, and an exception from execute or commit
   * propagates unchanged. The connection is closed only on the normal path:
   * on an exception it stays open.
   */
  lemma FetchAllUsersLeaks(c: ConnId, refused: Option<Error>, query: string,
                           answer: Outcome<Value>, commitError: Option<Error>)
    ensures var r := FetchAllUsers(c, refused, query, answer, commitError);
            && (refused.Some? ==> r == Run(Err(refused.value), []))
            && (refused.None? ==> |r.events| >= 2 && r.events[..2] == [Open(c), Execute(c, query)])
            && (Commit(c) in r.events <==> refused.None? && answer.Ok? && IsWrite(query))
            && multiset(r.events)[Commit(c)] <= 1
            && multiset(r.events)[Close(c)] == (if r.result.Ok? then 1 else 0)
            && (r.result.Ok? ==> r.result == answer && Bracketed(r.events, c))
            && (refused.None? && answer.Err? ==> r.result == answer)
            && (refused.None? && answer.Ok? && r.result.Err? ==>
                  commitError.Some? && r.result.error == commitError.value)
  {
    if refused.None? {
      var t := FetchAllUsers(c, refused, query, answer, commitError).events;
      var write := IsWrite(query);
      if answer.Err? {
        assert t == [Open(c), Execute(c, query)];
      } else if write && commitError.Some? {
        assert t == [Open(c), Execute(c, query), Commit(c)];
      } else if write {
        assert t == [Open(c), Execute(c, query), Commit(c), Close(c)];
      } else {
        assert t == [Open(c), Execute(c, query), Close(c)];
      }
    }
  }

  /** The `TypeError` Python raises when a call does not bind to `fetch_all_users(query)`; its text is not modelled. */
  const BindingError := Error("TypeError", "")

  /** The `TypeError` `cursor.execute` raises for a statement that is not a `str`; its text is not modelled. */
  const NotStatementError := Error("TypeError", "")

  /**
   * `fetch_all_users(*args, **kwargs)` as Python runs it: the arguments are
   * bound first; then the body runs, and a `query` that is not a string
   * makes `cursor.execute` raise after the connection was opened.
   */
  function CallFetchAllUsers(c: ConnId, refused: Option<Error>, args: Args,
                             answer: Outcome<Value>, commitError: Option<Error>): (r: Run)
  {
    match BindQuery(args)
    case None => Run(Err(BindingError), [])
    case Some(q) =>
      if q.TextV? then FetchAllUsers(c, refused, q.s, answer, commitError)
      else if refused.Some? then Run(Err(refused.value), [])
      else Run(Err(NotStatementError), [Open(c)])
  }

  /**
   * `fetch_all_users` decorated with `log_queries`: the line is printed
   * first on every path, even when the call does not bind. When a
   * statement is executed, it is the one the line names. A call that does
   * not bind raises after the line and does nothing else; a `query` that is
   * not a string raises after connecting and leaves the connection open.
   */
  lemma LoggedQueryIsExecuted(c: ConnId, refused: Option<Error>, args: Args,
                              answer: Outcome<Value>, commitError: Option<Error>)
    ensures var r := LogQueries(args, CallFetchAllUsers(c, refused, args, answer, commitError));
            && |r.events| >= 1 && r.events[0] == Log(ExecutingQuery(QueryOf(args)))
            && (forall q :: Execute(c, q) in r.events ==> QueryOf(args) == TextV(q))
            && (BindQuery(args).None? ==> r == Run(Err(BindingError), [Log(ExecutingQuery(QueryOf(args)))]))
            && (BindQuery(args).Some? && !BindQuery(args).value.TextV? && refused.None? ==>
                  r == Run(Err(NotStatementError), [Log(ExecutingQuery(QueryOf(args))), Open(c)]))
  {
    PrintedQueryIsBound(args);
    var inner := CallFetchAllUsers(c, refused, args, answer, commitError);
    LogQueriesFirst(args, inner);
    var b := BindQuery(args);
    if b.Some? && b.value.TextV? {
      FetchAllUsersExecutes(c, refused, b.value.s, answer, commitError);
    }
  }

  /** The body executes no statement but its own `query`. */
  lemma FetchAllUsersExecutes(c: ConnId, refused: Option<Error>, query: string,
                              answer: Outcome<Value>, commitError: Option<Error>)
    ensures forall q :: Execute(c, q) in FetchAllUsers(c, refused, query, answer, commitError).events ==> q == query
  {
  }
}
