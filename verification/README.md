# Robo: resource existence checks and result printing

This project models two pieces of Robo's task layer and proves properties of them.

- **`Common` (ResourceExistenceChecker.dfy): the resource existence checker.** Tasks mix it in to check their inputs before they run.
  - `checkResources` validates the `$type` argument and turns a single string into a one-element list.
  - It then expands every pattern with `glob` and checks every resolved path with `checkResource`: a file, a directory, or either.
  - Every failure goes to `printTaskError`. The results fold into one boolean, and the loop never stops at the first failure.
  - `checkSourceAndTargetResource` is a convenience wrapper for `source => target` arrays.
- **`Log` (ResultPrinter.dfy): the result printer.** It turns a task's `Result` into log lines: an error report, a "Done" line, or a stop-on-fail notice. It hides the progress indicator around every line it writes.

How each component is modelled:

- **The trait becomes the class `Common.ResourceExistenceChecker`.**
  - The filesystem is a constant value made of three oracles: `glob`, `file_exists` and `is_dir`. A `glob` of `None` stands for PHP's `false`.
  - The class's one field, `trace`, records everything the checker does, in order: each filesystem query and each task error reported.
  - The methods follow the PHP loops. Each one is proved against a specification function, such as `CheckPatterns` or `CheckPath`, whose value is a verdict plus the effects.
  - Views of a trace (`Observed`) read off the errors reported, the patterns globbed and the paths checked, each path read off the first query made for it.
  - Those views are compared with independent reference definitions: `AllSucceed`, `Expanded`, `Failing` and `ExpectedReports`.
- **The printer becomes the class `Log.ResultPrinter`.**
  - Its state is the sequence of (level, template, context) entries the logger received, whether the progress indicator is on screen, and a ghost history of indicator and logger calls.
  - The lines each operation writes, and the contexts it writes them with, are functions on a record of the `Result` fields the printer reads.
  - `Log.Wrapped` is the calls made writing those lines through `printMessage`. Each public operation's calls are exactly the wrapped calls of its lines, so every line reaches the logger while the indicator is hidden (`Log.WrappedLogsHidden`).

Where the code and the documented behaviour disagree, the model follows the code:

- **`printSuccess` returns `false`, even when it writes "Done".** The doc comment of `printResult` says the value tells whether a line was printed. `Log.PrintResultReturnValue` pins down when the two differ.
- **A literal path that does not exist is not reported.** PHP's `glob` expands such a path to an empty array, so no `checkResource` call happens (see `Common.EmptyExpansionPasses`). This is listed under Findings. The model leaves it to the `glob` oracle. `Common.GlobSound` states what a real `glob` guarantees, that it lists only existing paths. Under it a "fileAndDir" check fails only through an expansion error (`Common.SoundGlobFailsOnlyOnInvalid`).
- **The source/target helper returns nothing and checks the sources only.** The reasons are the typo listed under Findings, and that it returns nothing, as documented.

## Model

| member | source | states |
|---|---|---|
| Common.ParseKind | src/Common/ResourceExistenceChecker.php:15-17 | a kind is selected exactly for "file", "dir" and "fileAndDir", and it is the kind that name denotes |
| Common.SingleIsSingleton | src/Common/ResourceExistenceChecker.php:18-20 | checking a single string has exactly the verdict and effects of checking the one-element list, which is the check of that one pattern |
| Common.PathQueriesObserved | src/Common/ResourceExistenceChecker.php:50-67 | the queries for one path report nothing, glob nothing, and check that path once (its first query) |
| Common.CheckPathEffects | src/Common/ResourceExistenceChecker.php:47-68 | one path passes iff it is of the required kind; exactly one kind-specific error is reported iff it fails, none otherwise; no glob; the path is checked once (its first query) |
| Common.DirectoryPassesFileCheck | src/Common/ResourceExistenceChecker.php:50-55 | "file" is `file_exists`, so on a filesystem where directories exist a directory passes the file check |
| Common.FileAndDirAgreesWithFile | src/Common/ResourceExistenceChecker.php:62-67 | "fileAndDir" fails iff both `is_dir` and `file_exists` are false; on a real filesystem it accepts exactly what "file" accepts |
| Common.SoundGlobFailsOnlyOnInvalid | src/Common/ResourceExistenceChecker.php:21-35 | when `glob` lists only existing paths, a "fileAndDir" check of a list succeeds iff every pattern expands |
| Common.CheckPathsOk | src/Common/ResourceExistenceChecker.php:29-33 | the inner loop succeeds iff every resolved path passes, i.e. iff no path fails |
| Common.CheckPathsReports | src/Common/ResourceExistenceChecker.php:29-33 | the inner loop reports the missing-path error of every failing path and nothing else, in order |
| Common.CheckPathsQueries | src/Common/ResourceExistenceChecker.php:29-33 | the inner loop never globs and checks every resolved path once (its first query), in order |
| Common.CheckInvalidPattern | src/Common/ResourceExistenceChecker.php:23-28 | a pattern whose glob fails is globbed once, reports exactly the invalid-glob error, and checks no path |
| Common.CheckExpandedPattern | src/Common/ResourceExistenceChecker.php:23-33 | a pattern that expands is globbed once, then reports the errors of its failing paths and checks each path it expanded to once (its first query) |
| Common.CheckPatternEffects | src/Common/ResourceExistenceChecker.php:22-34 | one pattern succeeds iff it expands and all its paths pass; its first effect is its glob; its errors, globs and path checks are as above |
| Common.EmptyExpansionPasses | src/Common/ResourceExistenceChecker.php:29-33 | a pattern that expands to nothing does not fail and reports nothing |
| Common.CheckPatternOrLiteralReportsMissing | src/Common/ResourceExistenceChecker.php:6-11 | with an empty expansion checked as the path itself, a pattern that expands to nothing succeeds iff it is of the kind and otherwise reports its missing-path error; every other pattern is checked as the code does |
| Common.MissingLiteralPathPasses | src/Common/ResourceExistenceChecker.php:22-33 | a path that neither exists nor is a directory, and that `glob` expands to nothing, passes the check as written with no error; the corrected check fails and reports it |
| Common.CheckPatternsOk | src/Common/ResourceExistenceChecker.php:21-35 | the result is true iff every glob succeeded and every resolved path passed |
| Common.CheckPatternsReports | src/Common/ResourceExistenceChecker.php:21-35 | the errors reported are exactly the expected ones in input order, one invalid-glob error per failed expansion and one missing-path error per failing path; so the result is true iff nothing was reported |
| Common.CheckPatternsCalls | src/Common/ResourceExistenceChecker.php:22-33 | no short-circuit: every pattern is globbed in input order, and every path the expansions resolve to is checked once (its first query), in order |
| Common.ExpectedReportsCount | src/Common/ResourceExistenceChecker.php:22-33 | the number of errors is one per failed expansion plus one per resolved path that fails |
| Common.SourcePaths | src/Common/ResourceExistenceChecker.php:79-85 | the sources are the array keys, in iteration order, as strings; a single string is the key 0 |
| Common.TargetPaths | src/Common/ResourceExistenceChecker.php:84-86 | the targets the loop is evidently meant to collect are the array values, in iteration order |
| Common.SourceAndTargetChecksSourcesOnly | src/Common/ResourceExistenceChecker.php:82-89 | as written, the helper succeeds iff every source passes; its errors are those of the sources alone; it globs exactly the sources |
| Common.StringPairInputChecksKeyZero | src/Common/ResourceExistenceChecker.php:79-85 | a string given to the helper is checked as the path "0", its array key |
| Common.IntendedRunChecksBoth | src/Common/ResourceExistenceChecker.php:82-89 | with the typo corrected, the helper succeeds iff every source and every target passes; it reports the source errors, then the target errors, and globs the sources, then the targets |
| Common.FailingTargetGoesUnreported | src/Common/ResourceExistenceChecker.php:86-89 | for {"src/a.txt" => "dist/a.txt"}, on a filesystem whose `glob` lists only existing paths and fails on the target, the helper as written globs only the source, succeeds and reports nothing; the corrected one also globs the target, fails and reports the invalid-glob error |
| Common.ResourceExistenceChecker.PrintTaskError | src/Common/ResourceExistenceChecker.php:25 | reporting appends exactly that error to the trace |
| Common.ResourceExistenceChecker.Glob | src/Common/ResourceExistenceChecker.php:23 | returns the oracle's expansion and records one glob query |
| Common.ResourceExistenceChecker.IsDir | src/Common/ResourceExistenceChecker.php:98-101 | returns `is_dir` of the path and records one query |
| Common.ResourceExistenceChecker.IsFile | src/Common/ResourceExistenceChecker.php:109-112 | returns `file_exists` of the path and records one query |
| Common.ResourceExistenceChecker.CheckResource | src/Common/ResourceExistenceChecker.php:47-69 | for an accepted type, the verdict and the appended effects are those of `CheckPath`; for any other type nothing is queried or reported and the result is false |
| Common.ResourceExistenceChecker.CheckExpansion | src/Common/ResourceExistenceChecker.php:29-33 | the inner loop's flag and appended effects are those of `CheckPaths` on the expansion |
| Common.ResourceExistenceChecker.CheckGlob | src/Common/ResourceExistenceChecker.php:23-33 | one outer iteration's verdict and appended effects are those of `CheckPattern` |
| Common.ResourceExistenceChecker.CheckResources | src/Common/ResourceExistenceChecker.php:13-36 | the type defaults to "fileAndDir"; a bad type throws the invalid-type message with the trace unchanged, so nothing is globbed, checked or reported; otherwise the result and the appended effects are those of checking every pattern in order |
| Common.ResourceExistenceChecker.CheckSourceAndTargetResource | src/Common/ResourceExistenceChecker.php:77-90 | the trace grows by exactly the effects of checking the keys with the default type "fileAndDir" and then an empty list |
| Common.ResourceExistenceChecker.CheckSourceAndTargetPairs | src/Common/ResourceExistenceChecker.php:77-90 | with `$targets[] = $target`, the trace grows by the effects of checking the keys and then the values |
| Log.ArrayUnion | src/Log/ResultPrinter.php:56 | PHP's `+` on arrays: every key of either side, with the left-hand value winning |
| Log.WithEmptyMessage | src/Log/ResultPrinter.php:57 | assigning `['message'] = ''` to an array, `null` or `false` yields an array whose `message` is `''`, keeping its other entries; other scalars are unchanged |
| Log.ErrorContext | src/Log/ResultPrinter.php:56-57 | the error context has the caller's keys plus `timer-label` and `_style`; caller values win except for `_style`; the defaults fill in absent keys; `_style.message` is `''` |
| Log.ErrorContextKeepsCallerStyle | src/Log/ResultPrinter.php:56-57 | every other entry of a caller's `_style` array survives on the error path |
| Log.SuccessContext | src/Log/ResultPrinter.php:76 | the success context has the caller's keys and values, plus `timer-label = 'in'` only where the caller has none |
| Log.ErrorLines | src/Log/ResultPrinter.php:59-66 | the error path writes two lines if the task has not printed its own output, otherwise one; the last is "Exit code {code}" and the first of two is "{message}", both with the error context |
| Log.ErrorLinesShape | src/Log/ResultPrinter.php:59-66 | every error-path line is at error level, and a "{message}" line is written iff the task has not printed its output |
| Log.SuccessLines | src/Log/ResultPrinter.php:77-80 | the success path writes exactly one "Done" line with the success context iff the execution time is non-zero, otherwise nothing |
| Log.StopOnFailLines | src/Log/ResultPrinter.php:46-47 | exactly two lines: the notice "Stopping on fail. Exiting...." with an empty context, then "Exit Code: {code}" at error level with `code` the exit code |
| Log.PrintResultReturnValue | src/Log/ResultPrinter.php:27-38 | the value is true iff the task failed, and then the last line is the exit code; the value and "a line was written" differ exactly on a successful result with a non-zero execution time |
| Log.WrappedLogsHidden | src/Log/ResultPrinter.php:84-91 | writing lines one by one through `printMessage` hands the logger exactly those lines, in order, and none while the indicator is shown |
| Log.ResultPrinter.HideProgressIndicator | src/Log/ResultPrinter.php:86 | returns whether the indicator was shown and leaves it hidden |
| Log.ResultPrinter.RestoreProgressIndicator | src/Log/ResultPrinter.php:89 | sets the indicator to the given state |
| Log.ResultPrinter.LoggerLog | src/Log/ResultPrinter.php:87 | appends exactly one entry to the log |
| Log.ResultPrinter.PrintMessage | src/Log/ResultPrinter.php:84-91 | hide, then exactly one entry written while hidden, then restore iff the indicator was shown; the indicator ends as it began; no line is ever written while it is shown, and the log stays the entries handed to the logger |
| Log.ResultPrinter.PrintResult | src/Log/ResultPrinter.php:31-38 | takes the error path iff the task failed and returns that path's value; the log grows by that path's lines, each written through `printMessage` (hide, log while hidden, restore); the indicator is unchanged |
| Log.ResultPrinter.PrintStopOnFail | src/Log/ResultPrinter.php:44-48 | the log grows by exactly the two stop-on-fail lines, each written through `printMessage` (hide, log while hidden, restore); the indicator is unchanged |
| Log.ResultPrinter.PrintError | src/Log/ResultPrinter.php:53-68 | always returns true; the log grows by exactly the error-path lines, each written through `printMessage` (hide, log while hidden, restore); the indicator is unchanged |
| Log.ResultPrinter.PrintSuccess | src/Log/ResultPrinter.php:73-82 | always returns false; the log grows by exactly the success-path lines, each written through `printMessage` (hide, log while hidden, restore); the indicator is unchanged |

## Left out

- Filesystem semantics: `glob`, `is_dir` and `file_exists` are uninterpreted oracles. The model has no wildcard matching, `glob` flags, result ordering or symlink rules. The filesystem does not change while a check runs.
- Common.ResourceExistenceChecker.CheckSourceAndTargetResource: does not model the runtime error that `$target[] = $target` at line 86 raises when the target is a string. Only the source-level consequence is modelled: `$targets` stays empty.
- Loose PHP comparison: `$type` is a string. The non-strict `in_array` and `switch` comparisons on other PHP values are not modelled, such as `true` or `0`.
- Inputs that are neither a string nor an array: a `$resources` of any other PHP type, such as a `Traversable` or `null`, is not modelled.
- `checkResource` with an unknown type: PHP returns `null` here. The model returns `false`, the value `null` has when a caller tests it.
- Log.WithEmptyMessage: a caller `_style` that is a string, an integer or `true` is left unchanged. PHP raises an error or a warning for these.
- Logger internals: placeholder interpolation (`{message}`, `{code}`), console styling and output are not modelled. An entry is the raw (level, template, context) triple, and the logger is assumed to be set.
- Exceptions from the logger: the hide/log/restore sequence has no `finally`, so a throwing logger would leave the indicator hidden. The model assumes the logger does not throw.
- The progress indicator is one boolean. The `ProgressIndicatorAwareTrait` and the indicator's own state are not part of this model.
- The `Result` and `TaskInfo` classes are not part of this model.
  - A result is a record of the fields the printer reads.
  - The execution time is reduced to "non-zero", with no float arithmetic.
  - The task is reduced to whether it is a `PrintedInterface`, and if so what `getPrinted()` returns.
- `printTaskError`: its formatting and output are not part of this model. It is the error sink.

## Findings

| source | as written | input that shows it | evidently intended | confidence | as-written member | corrected member |
|---|---|---|---|---|---|---|
| src/Common/ResourceExistenceChecker.php:86 | `$target[] = $target` appends to the loop variable, so `$targets` stays empty and `checkResources($targets)` checks nothing | `["src/a.txt" => "dist/a.txt"]` where only `src/a.txt` exists and `glob("dist/a.txt")` returns `false`: the target is never globbed, the helper succeeds and no error is reported, where the corrected helper reports `Invalid glob "dist/a.txt"!` | `$targets[] = $target`, so the targets are checked as well | high, not executed | Common.FailingTargetGoesUnreported | Common.ResourceExistenceChecker.CheckSourceAndTargetPairs |
| src/Common/ResourceExistenceChecker.php:22-33 | a pattern that `glob` expands to nothing is never given to `checkResource`, so a literal path that does not exist passes, although the doc comment says the input is checked to be a file or folder | `checkResources("missing.txt", "file")` on a filesystem without `missing.txt`, where `glob` returns `[]`: the result is true and no error is reported | an empty expansion checks the pattern itself, so `File "missing.txt" does not exist!` is reported | medium, not executed | Common.MissingLiteralPathPasses | Common.CheckPatternOrLiteralReportsMissing |
