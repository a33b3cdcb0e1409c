/**
 * Robo's result printer: it turns the `Result` of a task into log lines (an
 * error report or a "Done" line) and hides the progress indicator around
 * every line it writes, so that no line is written while the indicator is on
 * screen.
 *
 * The logger is the sequence of (level, template, context) triples it has
 * received; placeholder interpolation happens inside the logger and is not
 * modelled. The progress indicator is one boolean: whether it is displayed.
 */
module Log {

  import Common

  /** The log levels the printer uses (PSR `notice`, `error`, and the
      console logger's `success`). */
  datatype Level = Notice | Error | Success

  /** A PHP value that may appear in a log context. */
  datatype Value = Null | Bool(b: bool) | Int(i: int) | Str(s: string) | Arr(entries: map<string, Value>)

  /** A log context: a PHP array with string keys. */
  type Context = map<string, Value>

  datatype LogEntry = LogEntry(level: Level, message: string, context: Context)

  /** The parts of a `Result` the printer reads. `task` is `None` when the
      task does not implement `PrintedInterface`, and `Some(printed)` with
      the value of its `getPrinted()` when it does. The execution time is
      reduced to whether it is non-zero. */
  datatype TaskResult = TaskResult(
    successful: bool,
    exitCode: int,
    context: Context,
    executionTimeNonZero: bool,
    task: Common.Option<bool>)

  /** What the printer does around the logger, in order. `LogCall` records
      whether the indicator was displayed when the line was written. */
  datatype Event = Hide | LogCall(entry: LogEntry, indicatorShown: bool) | Restore(state: bool)

  // ---------------------------------------------------------------------
  // Contexts

  /** PHP's array union `a + b`: every key of either, the left-hand value
      winning where both have the key. */
  function ArrayUnion(a: Context, b: Context): (r: Context)
    ensures r.Keys == a.Keys + b.Keys
    ensures forall k :: k in a ==> r[k] == a[k]
    ensures forall k :: k in b && k !in a ==> r[k] == b[k]
  {
    b + a
  }

  /** Whether `$v['message'] = ''` turns `$v` into (or keeps it) an array:
      arrays are updated, `null` and `false` are auto-vivified. */
  predicate StyleAssignable(v: Value)
  {
    v.Arr? || v == Null || v == Bool(false)
  }

  /** `$v['message'] = ''` on an array-like value; other scalars are left as
      they are. */
  function WithEmptyMessage(v: Value): (r: Value)
    ensures StyleAssignable(v) ==> r.Arr? && r.entries.Keys == (if v.Arr? then v.entries.Keys else {}) + {"message"}
    ensures StyleAssignable(v) ==> r.entries["message"] == Str("")
    ensures StyleAssignable(v) && v.Arr? ==> forall k :: k in v.entries && k != "message" ==> r.entries[k] == v.entries[k]
    ensures !StyleAssignable(v) ==> r == v
  {
    match v
    case Arr(m) => Arr(m["message" := Str("")])
    case Null => Arr(map["message" := Str("")])
    case Bool(false) => Arr(map["message" := Str("")])
    case _ => v
  }

  /** The context of the error path: the caller's context with the defaults
      `timer-label = 'Time'` and `_style = []` added where the caller has no
      such key, then `_style['message']` forced to `''`. */
  function ErrorContext(c: Context): (r: Context)
    ensures r.Keys == c.Keys + {"timer-label", "_style"}
    ensures forall k :: k in c && k != "_style" ==> r[k] == c[k]
    ensures "timer-label" !in c ==> r["timer-label"] == Str("Time")
    ensures "_style" !in c ==> r["_style"] == Arr(map["message" := Str("")])
    ensures "_style" in c ==> r["_style"] == WithEmptyMessage(c["_style"])
    ensures ("_style" !in c || StyleAssignable(c["_style"])) ==>
              r["_style"].Arr? && r["_style"].entries["message"] == Str("")
  {
    var merged := ArrayUnion(c, map["timer-label" := Str("Time"), "_style" := Arr(map[])]);
    merged["_style" := WithEmptyMessage(merged["_style"])]
  }

  /** The context of the success path: the caller's context with
      `timer-label = 'in'` added only where the caller has none. */
  function SuccessContext(c: Context): (r: Context)
    ensures r.Keys == c.Keys + {"timer-label"}
    ensures forall k :: k in c ==> r[k] == c[k]
    ensures "timer-label" !in c ==> r["timer-label"] == Str("in")
  {
    ArrayUnion(c, map["timer-label" := Str("in")])
  }

  // ---------------------------------------------------------------------
  // The lines each operation writes

  /** Whether the error path writes the task's message: unless the task is
      a `PrintedInterface` that has already printed. */
  predicate PrintsOutput(task: Common.Option<bool>)
  {
    !(task.Some? && task.value)
  }

  /** The lines `printError` writes. */
  function ErrorLines(r: TaskResult): (lines: seq<LogEntry>)
    ensures |lines| == if PrintsOutput(r.task) then 2 else 1
    ensures lines[|lines| - 1] == LogEntry(Error, "Exit code {code}", ErrorContext(r.context))
    ensures |lines| == 2 ==> lines[0] == LogEntry(Error, "{message}", ErrorContext(r.context))
  {
    var context := ErrorContext(r.context);
    (if PrintsOutput(r.task) then [LogEntry(Error, "{message}", context)] else [])
    + [LogEntry(Error, "Exit code {code}", context)]
  }

  /** The lines `printSuccess` writes. */
  function SuccessLines(r: TaskResult): (lines: seq<LogEntry>)
    ensures |lines| == if r.executionTimeNonZero then 1 else 0
    ensures forall e :: e in lines ==> e == LogEntry(Success, "Done", SuccessContext(r.context))
  {
    if r.executionTimeNonZero then [LogEntry(Success, "Done", SuccessContext(r.context))] else []
  }

  /** The lines `printStopOnFail` writes. */
  function StopOnFailLines(r: TaskResult): (lines: seq<LogEntry>)
    ensures |lines| == 2
    ensures lines[0] == LogEntry(Notice, "Stopping on fail. Exiting....", map[])
    ensures lines[1] == LogEntry(Error, "Exit Code: {code}", map["code" := Int(r.exitCode)])
  {
    [LogEntry(Notice, "Stopping on fail. Exiting....", map[]),
     LogEntry(Error, "Exit Code: {code}", map["code" := Int(r.exitCode)])]
  }

  /** The lines `printResult` writes: the error path iff the task failed. */
  function ResultLines(r: TaskResult): seq<LogEntry>
  {
    if !r.successful then ErrorLines(r) else SuccessLines(r)
  }

  /** What `printResult` returns: the error path returns true, the success
      path false. */
  predicate ResultPrinted(r: TaskResult)
  {
    !r.successful
  }

  /** Dispatch and return value: a failure always writes the exit-code line
      and returns true; a success returns false whether or not "Done" is
      written, so the value is not "a line was written" as the doc comment of
      `printResult` says: the two differ exactly on a successful result with
      a non-zero execution time. */
  lemma PrintResultReturnValue(r: TaskResult)
    ensures ResultPrinted(r) <==> !r.successful
    ensures ResultPrinted(r) ==> ResultLines(r)[|ResultLines(r)| - 1].message == "Exit code {code}"
    ensures (ResultLines(r) != []) != ResultPrinted(r) <==> r.successful && r.executionTimeNonZero
  {
  }

  /** The error path writes one or two lines, all at error level, and the
      message line exactly when the task has not printed its own output. */
  lemma ErrorLinesShape(r: TaskResult)
    ensures forall e :: e in ErrorLines(r) ==> e.level == Error
    ensures (exists e :: e in ErrorLines(r) && e.message == "{message}") <==> PrintsOutput(r.task)
  {
    var lines := ErrorLines(r);
    if PrintsOutput(r.task) {
      assert lines[0] in lines;
    } else {
      assert lines == [LogEntry(Error, "Exit code {code}", ErrorContext(r.context))];
    }
  }

  /** A caller's `_style` array keeps its other entries on the error path;
      only its `message` entry is overridden. */
  lemma ErrorContextKeepsCallerStyle(c: Context, key: string)
    requires "_style" in c && c["_style"].Arr? && key in c["_style"].entries && key != "message"
    ensures ErrorContext(c)["_style"].Arr?
    ensures key in ErrorContext(c)["_style"].entries
    ensures ErrorContext(c)["_style"].entries[key] == c["_style"].entries[key]
  {
  }

  // ---------------------------------------------------------------------
  // The calls around each line

  /** The calls `printMessage` makes for one line when the indicator is
      shown iff `shown`: hide, log while hidden, restore iff it was shown. */
  function Wrap(entry: LogEntry, shown: bool): seq<Event>
  {
    [Hide, LogCall(entry, false)] + (if shown then [Restore(true)] else [])
  }

  /** The calls made writing `lines` one by one through `printMessage`. */
  function Wrapped(lines: seq<LogEntry>, shown: bool): seq<Event>
    decreases |lines|
  {
    if lines == [] then [] else Wrapped(lines[..|lines| - 1], shown) + Wrap(lines[|lines| - 1], shown)
  }

  /** The entries the logger received, read off the calls. */
  function LoggedEntries(events: seq<Event>): seq<LogEntry>
    decreases |events|
  {
    if events == [] then []
    else
      var last := events[|events| - 1];
      LoggedEntries(events[..|events| - 1]) + (if last.LogCall? then [last.entry] else [])
  }

  /** No line is written while the indicator is on screen. */
  ghost predicate LoggedHidden(events: seq<Event>)
  {
    forall i :: 0 <= i < |events| && events[i].LogCall? ==> !events[i].indicatorShown
  }

  lemma {:induction false} LoggedEntriesAppend(a: seq<Event>, b: seq<Event>)
    ensures LoggedEntries(a + b) == LoggedEntries(a) + LoggedEntries(b)
    decreases |b|
  {
    if b == [] {
      assert a + b == a;
    } else {
      assert (a + b)[..|a + b| - 1] == a + b[..|b| - 1];
      LoggedEntriesAppend(a, b[..|b| - 1]);
    }
  }

  lemma AppendAssoc<T>(a: seq<T>, b: seq<T>, c: seq<T>)
    ensures a + b + c == a + (b + c)
  {
  }

  lemma LoggedHiddenAppend(a: seq<Event>, b: seq<Event>)
    requires LoggedHidden(a) && LoggedHidden(b)
    ensures LoggedHidden(a + b)
  {
    forall i | 0 <= i < |a + b| && (a + b)[i].LogCall?
      ensures !(a + b)[i].indicatorShown
    {
      if i >= |a| {
        assert (a + b)[i] == b[i - |a|];
      }
    }
  }

  /** One line through `printMessage` hands the logger that line, hidden. */
  lemma WrapLogsHidden(entry: LogEntry, shown: bool)
    ensures LoggedEntries(Wrap(entry, shown)) == [entry]
    ensures LoggedHidden(Wrap(entry, shown))
  {
    var call := LogCall(entry, false);
    LoggedEntriesAppend([Hide], [call]);
    LoggedEntriesAppend([Hide, call], if shown then [Restore(true)] else []);
    assert LoggedEntries([Hide]) == [] by { assert [Hide][..0] == []; }
    assert LoggedEntries([call]) == [entry] by { assert [call][..0] == []; }
    assert [Hide] + [call] == [Hide, call];
    if shown {
      assert LoggedEntries([Restore(true)]) == [] by { assert [Restore(true)][..0] == []; }
    }
  }

  lemma WrappedOne(entry: LogEntry, shown: bool)
    ensures Wrapped([entry], shown) == Wrap(entry, shown)
  {
    assert [entry][..0] == [];
  }

  /** Writing `lines` through `printMessage` hands the logger exactly
      `lines`, in order, each while the indicator is hidden. */
  lemma {:induction false} WrappedLogsHidden(lines: seq<LogEntry>, shown: bool)
    ensures LoggedEntries(Wrapped(lines, shown)) == lines
    ensures LoggedHidden(Wrapped(lines, shown))
    decreases |lines|
  {
    if lines != [] {
      var init := lines[..|lines| - 1];
      WrappedLogsHidden(init, shown);
      WrapLogsHidden(lines[|lines| - 1], shown);
      LoggedEntriesAppend(Wrapped(init, shown), Wrap(lines[|lines| - 1], shown));
      assert init + [lines[|lines| - 1]] == lines;
    }
  }

  /** The calls of the error path: the message line's, if written, then the
      exit-code line's. */
  lemma ErrorLinesWrapped(r: TaskResult, shown: bool)
    ensures Wrapped(ErrorLines(r), shown)
         == (if PrintsOutput(r.task) then Wrap(LogEntry(Error, "{message}", ErrorContext(r.context)), shown) else [])
            + Wrap(LogEntry(Error, "Exit code {code}", ErrorContext(r.context)), shown)
  {
    var message := LogEntry(Error, "{message}", ErrorContext(r.context));
    var exit := LogEntry(Error, "Exit code {code}", ErrorContext(r.context));
    WrappedOne(message, shown);
    WrappedOne(exit, shown);
    WrappedAppend(if PrintsOutput(r.task) then [message] else [], [exit], shown);
  }

  /** The calls of `printStopOnFail`: the notice's, then the exit code's. */
  lemma StopOnFailWrapped(r: TaskResult, shown: bool)
    ensures Wrapped(StopOnFailLines(r), shown)
         == Wrap(LogEntry(Notice, "Stopping on fail. Exiting....", map[]), shown)
            + Wrap(LogEntry(Error, "Exit Code: {code}", map["code" := Int(r.exitCode)]), shown)
  {
    var lines := StopOnFailLines(r);
    WrappedOne(lines[0], shown);
    WrappedOne(lines[1], shown);
    WrappedAppend([lines[0]], [lines[1]], shown);
    assert [lines[0]] + [lines[1]] == lines;
  }

  /** The calls of the success path: the "Done" line's, if written. */
  lemma SuccessLinesWrapped(r: TaskResult, shown: bool)
    ensures Wrapped(SuccessLines(r), shown)
         == if r.executionTimeNonZero then Wrap(LogEntry(Success, "Done", SuccessContext(r.context)), shown) else []
  {
    if r.executionTimeNonZero {
      WrappedOne(LogEntry(Success, "Done", SuccessContext(r.context)), shown);
    }
  }

  /** Writing the lines of two calls in a row is writing their concatenation. */
  lemma {:induction false} WrappedAppend(a: seq<LogEntry>, b: seq<LogEntry>, shown: bool)
    ensures Wrapped(a + b, shown) == Wrapped(a, shown) + Wrapped(b, shown)
    decreases |b|
  {
    if b == [] {
      assert a + b == a;
    } else {
      assert (a + b)[..|a + b| - 1] == a + b[..|b| - 1];
      WrappedAppend(a, b[..|b| - 1], shown);
    }
  }

  // ---------------------------------------------------------------------
  // The printer

  /** A `ResultPrinter` with its logger and progress indicator. `log` is what
      the logger has received, `indicatorShown` whether the indicator is on
      screen, `events` every indicator and logger call, in order. */
  class ResultPrinter {
    var log: seq<LogEntry>
    var indicatorShown: bool
    ghost var events: seq<Event>

    /** The invariant the hide/log/restore discipline keeps: no line has
        been written while the indicator was on screen, and the log is
        exactly the lines handed to the logger. */
    ghost predicate Valid()
      reads this
    {
      LoggedHidden(events) && log == LoggedEntries(events)
    }

    constructor (indicatorShown: bool)
      ensures Valid()
      ensures log == [] && this.indicatorShown == indicatorShown && events == []
    {
      log := [];
      this.indicatorShown := indicatorShown;
      events := [];
    }

    /** `hideProgressIndicator()`: hides the indicator and returns whether
        it was shown. */
    method HideProgressIndicator() returns (wasShown: bool)
      modifies this`indicatorShown, this`events
      ensures wasShown == old(indicatorShown) && !indicatorShown
      ensures events == old(events) + [Hide]
    {
      wasShown := indicatorShown;
      indicatorShown := false;
      events := events + [Hide];
    }

    /** `restoreProgressIndicator($state)`. */
    method RestoreProgressIndicator(state: bool)
      modifies this`indicatorShown, this`events
      ensures indicatorShown == state
      ensures events == old(events) + [Restore(state)]
    {
      indicatorShown := state;
      events := events + [Restore(state)];
    }

    /** `$this->logger->log($level, $message, $context)`. */
    method LoggerLog(level: Level, message: string, context: Context)
      modifies this`log, this`events
      ensures log == old(log) + [LogEntry(level, message, context)]
      ensures events == old(events) + [LogCall(LogEntry(level, message, context), indicatorShown)]
    {
      log := log + [LogEntry(level, message, context)];
      events := events + [LogCall(LogEntry(level, message, context), indicatorShown)];
    }

    /** `printMessage`: hide, log one entry, restore iff it was shown. The
        indicator ends as it began and the line is written while hidden. */
    method PrintMessage(level: Level, message: string, context: Context)
      requires Valid()
      modifies this
      ensures Valid()
      ensures log == old(log) + [LogEntry(level, message, context)]
      ensures indicatorShown == old(indicatorShown)
      ensures events == old(events) + Wrap(LogEntry(level, message, context), old(indicatorShown))
    {
      var inProgress := HideProgressIndicator();
      LoggerLog(level, message, context);
      if inProgress {
        RestoreProgressIndicator(inProgress);
      }
      var w := Wrap(LogEntry(level, message, context), old(indicatorShown));
      assert events == old(events) + w;
      WrapLogsHidden(LogEntry(level, message, context), old(indicatorShown));
      LoggedEntriesAppend(old(events), w);
      LoggedHiddenAppend(old(events), w);
    }

    /** `printResult`: the error path iff the task failed, returning that
        path's value. */
    method PrintResult(result: TaskResult) returns (printed: bool)
      requires Valid()
      modifies this
      ensures Valid()
      ensures printed == ResultPrinted(result)
      ensures log == old(log) + ResultLines(result)
      ensures indicatorShown == old(indicatorShown)
      ensures events == old(events) + Wrapped(ResultLines(result), old(indicatorShown))
    {
      if !result.successful {
        printed := PrintError(result);
      } else {
        printed := PrintSuccess(result);
      }
    }

    /** `printStopOnFail`: a notice, then the exit code at error level. */
    method PrintStopOnFail(result: TaskResult)
      requires Valid()
      modifies this
      ensures Valid()
      ensures log == old(log) + StopOnFailLines(result)
      ensures indicatorShown == old(indicatorShown)
      ensures events == old(events) + Wrapped(StopOnFailLines(result), old(indicatorShown))
    {
      PrintMessage(Notice, "Stopping on fail. Exiting....", map[]);
      PrintMessage(Error, "Exit Code: {code}", map["code" := Int(result.exitCode)]);
      StopOnFailWrapped(result, old(indicatorShown));
      AppendAssoc(old(events), Wrap(LogEntry(Notice, "Stopping on fail. Exiting....", map[]), old(indicatorShown)),
                  Wrap(LogEntry(Error, "Exit Code: {code}", map["code" := Int(result.exitCode)]), old(indicatorShown)));
    }

    /** `printError`: always true; the message line unless the task has
        already printed, then the exit-code line. */
    method PrintError(result: TaskResult) returns (printed: bool)
      requires Valid()
      modifies this
      ensures Valid()
      ensures printed
      ensures log == old(log) + ErrorLines(result)
      ensures indicatorShown == old(indicatorShown)
      ensures events == old(events) + Wrapped(ErrorLines(result), old(indicatorShown))
    {
      var task := result.task;
      var context := ArrayUnion(result.context, map["timer-label" := Str("Time"), "_style" := Arr(map[])]);
      context := context["_style" := WithEmptyMessage(context["_style"])];
      assert context == ErrorContext(result.context);
      var printOutput := true;
      if task.Some? {
        printOutput := !task.value;
      }
      assert printOutput == PrintsOutput(result.task);
      ghost var before := events;
      if printOutput {
        PrintMessage(Error, "{message}", context);
      }
      assert events == before + if printOutput then Wrap(LogEntry(Error, "{message}", context), old(indicatorShown)) else [];
      assert log == old(log) + if printOutput then [LogEntry(Error, "{message}", context)] else [];
      PrintMessage(Error, "Exit code {code}", context);
      ErrorLinesWrapped(result, old(indicatorShown));
      AppendAssoc(old(log), if printOutput then [LogEntry(Error, "{message}", context)] else [], [LogEntry(Error, "Exit code {code}", context)]);
      AppendAssoc(before, if printOutput then Wrap(LogEntry(Error, "{message}", context), old(indicatorShown)) else [],
                  Wrap(LogEntry(Error, "Exit code {code}", context), old(indicatorShown)));
      return true;
    }

    /** `printSuccess`: "Done" iff the execution time is non-zero; always
        false. */
    method PrintSuccess(result: TaskResult) returns (printed: bool)
      requires Valid()
      modifies this
      ensures Valid()
      ensures !printed
      ensures log == old(log) + SuccessLines(result)
      ensures indicatorShown == old(indicatorShown)
      ensures events == old(events) + Wrapped(SuccessLines(result), old(indicatorShown))
    {
      var context := ArrayUnion(result.context, map["timer-label" := Str("in")]);
      if result.executionTimeNonZero {
        PrintMessage(Success, "Done", context);
      }
      SuccessLinesWrapped(result, old(indicatorShown));
      return false;
    }
  }
}
