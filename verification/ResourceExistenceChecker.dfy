/**
 * The resource existence checker that Robo mixes into its tasks: before a
 * task runs it expands each path pattern with `glob` and checks that every
 * resolved path exists as a file, a directory, or either, reporting one task
 * error per failure and folding the results into one boolean.
 *
 * The filesystem is a value of three oracles (`glob`, `file_exists`,
 * `is_dir`); the checker only queries it. What a check does is a trace of
 * effects: every filesystem query and every task error reported, in order.
 * From the trace one can read off the errors, the patterns globbed and the
 * paths checked (by the first query each path gets), so that "nothing is looked up before the type is validated"
 * and "every pattern is globbed, every resolved path is checked" can be
 * stated.
 */
module Common {

  datatype Option<T> = None | Some(value: T)

  /** The three filesystem primitives the checker uses. `glob` yields `None`
      where PHP's `glob()` returns `false` (an expansion error).
      `fileExists` is `file_exists`, which also holds of directories. */
  datatype FileSystem = FileSystem(
    glob: string -> Option<seq<string>>,
    fileExists: string -> bool,
    isDir: string -> bool)

  /** A filesystem in which every directory also exists (as the real
      `is_dir` and `file_exists` behave). The oracles need not satisfy it. */
  ghost predicate Consistent(fs: FileSystem)
  {
    forall p :: fs.isDir(p) ==> fs.fileExists(p)
  }

  /** A filesystem whose `glob` lists only paths that exist, as the real
      `glob()` does. The oracles need not satisfy it. */
  ghost predicate GlobSound(fs: FileSystem)
  {
    forall p :: fs.glob(p).Some? ==>
      forall j :: 0 <= j < |fs.glob(p).value| ==> fs.fileExists(fs.glob(p).value[j]) || fs.isDir(fs.glob(p).value[j])
  }

  /** The accepted values of the `$type` argument. */
  datatype Kind = File | Dir | FileAndDir

  /** The `$resources` argument: a single pattern or a list of patterns. */
  datatype Resources = Single(pattern: string) | Many(patterns: seq<string>)

  /** One query of the filesystem. */
  datatype FsCall = GlobCall(pattern: string) | IsDirCall(path: string) | FileExistsCall(path: string)

  /** One observable effect: a filesystem query, or a task error reported
      through `printTaskError`. */
  datatype Effect = Query(call: FsCall) | Report(message: string)

  /** The result of checking something: the verdict and the effects, in
      order. */
  datatype Run = Run(ok: bool, effects: seq<Effect>)

  /** What `checkResources` does: return a boolean or throw
      `InvalidArgumentException` with a message. */
  datatype CheckOutcome = Returned(success: bool) | InvalidArgument(message: string)

  /** A key of a PHP array: integer or string. */
  datatype Key = IntKey(i: int) | StrKey(s: string)

  /** The argument of `checkSourceAndTargetResource`: a single string or an
      ordered array of source => target entries. */
  datatype PairsInput = OneString(s: string) | Entries(entries: seq<(Key, string)>)

  // ---------------------------------------------------------------------
  // Facts about sequences, each proved on its own

  lemma AppendEmpty<T>(a: seq<T>)
    ensures a + [] == a && [] + a == a
  {
  }

  lemma InitOfAppend<T>(a: seq<T>, b: seq<T>)
    requires b != []
    ensures (a + b)[..|a + b| - 1] == a + b[..|b| - 1]
    ensures (a + b)[|a + b| - 1] == b[|b| - 1]
  {
  }

  lemma SnocSplit<T>(s: seq<T>)
    requires s != []
    ensures s == s[..|s| - 1] + [s[|s| - 1]]
  {
  }

  lemma PrefixStep<T>(s: seq<T>, i: int)
    requires 0 <= i < |s|
    ensures s[..i + 1][..i] == s[..i]
    ensures s[..i + 1][i] == s[i]
  {
  }

  lemma PrefixSnoc<T>(s: seq<T>, i: int)
    requires 0 <= i < |s|
    ensures s[..i + 1] == s[..i] + [s[i]]
  {
  }

  lemma PrefixFull<T>(s: seq<T>)
    ensures s[..|s|] == s
  {
  }

  lemma AppendAssoc<T>(a: seq<T>, b: seq<T>, c: seq<T>)
    ensures a + b + c == a + (b + c)
  {
  }

  lemma SingletonInit<T>(x: T)
    ensures [x][..0] == []
  {
  }

  // ---------------------------------------------------------------------
  // The `$type` argument and the messages

  function KindName(kind: Kind): string
  {
    match kind
    case File => "file"
    case Dir => "dir"
    case FileAndDir => "fileAndDir"
  }

  /** The `in_array($type, ['file', 'dir', 'fileAndDir'])` test, giving the
      kind selected by an accepted name. */
  function ParseKind(name: string): (r: Option<Kind>)
    ensures r.Some? <==> name in ["file", "dir", "fileAndDir"]
    ensures r.Some? ==> KindName(r.value) == name
  {
    if name == "file" then Some(File)
    else if name == "dir" then Some(Dir)
    else if name == "fileAndDir" then Some(FileAndDir)
    else None
  }

  function InvalidTypeMessage(name: string): string
  {
    "Invalid resource check of type \"" + name + "\" used!"
  }

  function InvalidGlobMessage(pattern: string): string
  {
    "Invalid glob \"" + pattern + "\"!"
  }

  function MissingMessage(kind: Kind, path: string): string
  {
    match kind
    case File => "File \"" + path + "\" does not exist!"
    case Dir => "Directory \"" + path + "\" does not exist!"
    case FileAndDir => "File or directory \"" + path + "\" does not exist!"
  }

  // ---------------------------------------------------------------------
  // Views of a trace

  /** What can be read off a trace: the errors reported, the patterns given
      to `glob`, or the paths checked, each read off the first query made
      for it (a "fileAndDir" check of a non-directory makes a second one). */
  datatype View = Reports | Globs | Probes(kind: Kind)

  /** Whether `call` is the query that `checkResource` always makes first
      for a path of the given kind. */
  predicate IsFirstProbe(call: FsCall, kind: Kind)
  {
    match kind
    case File => call.FileExistsCall?
    case Dir => call.IsDirCall?
    case FileAndDir => call.IsDirCall?
  }

  function Pick(e: Effect, view: View): seq<string>
  {
    match view
    case Reports => if e.Report? then [e.message] else []
    case Globs => if e.Query? && e.call.GlobCall? then [e.call.pattern] else []
    case Probes(kind) => if e.Query? && IsFirstProbe(e.call, kind) then [e.call.path] else []
  }

  /** The strings a view reads off a trace, in order. */
  function Observed(effects: seq<Effect>, view: View): seq<string>
    decreases |effects|
  {
    if effects == [] then []
    else Observed(effects[..|effects| - 1], view) + Pick(effects[|effects| - 1], view)
  }

  /** A view of two traces in a row is the two views in a row. */
  lemma {:induction false} ObservedAppend(a: seq<Effect>, b: seq<Effect>, view: View)
    ensures Observed(a + b, view) == Observed(a, view) + Observed(b, view)
    decreases |b|
  {
    if b == [] {
      AppendEmpty(a);
    } else {
      InitOfAppend(a, b);
      ObservedAppend(a, b[..|b| - 1], view);
      AppendAssoc(Observed(a, view), Observed(b[..|b| - 1], view), Pick(b[|b| - 1], view));
    }
  }

  lemma ObservedOne(e: Effect, view: View)
    ensures Observed([e], view) == Pick(e, view)
  {
    SingletonInit(e);
  }

  // ---------------------------------------------------------------------
  // Specification of the checks

  /** Whether `path` is of the required kind. */
  predicate Passes(fs: FileSystem, path: string, kind: Kind)
  {
    match kind
    case File => fs.fileExists(path)
    case Dir => fs.isDir(path)
    case FileAndDir => fs.isDir(path) || fs.fileExists(path)
  }

  function Clean(): Run
  {
    Run(true, [])
  }

  /** Running `a`, then `b`, without short-circuit. */
  function Then(a: Run, b: Run): Run
  {
    Run(a.ok && b.ok, a.effects + b.effects)
  }

  /** The queries `checkResource($path, $type)` makes for an accepted type.
      The "fileAndDir" test is `!isDir && !isFile`, so `file_exists` is only
      asked when the path is not a directory. */
  function PathQueries(fs: FileSystem, path: string, kind: Kind): seq<Effect>
  {
    match kind
    case File => [Query(FileExistsCall(path))]
    case Dir => [Query(IsDirCall(path))]
    case FileAndDir =>
      if fs.isDir(path) then [Query(IsDirCall(path))]
      else [Query(IsDirCall(path)), Query(FileExistsCall(path))]
  }

  /** `checkResource($path, $type)` for an accepted type: the queries, then
      the error if the path is not of the kind. */
  function CheckPath(fs: FileSystem, path: string, kind: Kind): Run
  {
    if Passes(fs, path, kind) then Run(true, PathQueries(fs, path, kind))
    else Run(false, PathQueries(fs, path, kind) + [Report(MissingMessage(kind, path))])
  }

  /** The inner loop of `checkResources`: every path of one expansion. */
  function CheckPaths(fs: FileSystem, paths: seq<string>, kind: Kind): Run
    decreases |paths|
  {
    if paths == [] then Clean()
    else Then(CheckPaths(fs, paths[..|paths| - 1], kind), CheckPath(fs, paths[|paths| - 1], kind))
  }

  lemma CheckPathsSnoc(fs: FileSystem, paths: seq<string>, j: int, kind: Kind)
    requires 0 <= j < |paths|
    ensures CheckPaths(fs, paths[..j + 1], kind).ok == (CheckPaths(fs, paths[..j], kind).ok && CheckPath(fs, paths[j], kind).ok)
    ensures CheckPaths(fs, paths[..j + 1], kind).effects == CheckPaths(fs, paths[..j], kind).effects + CheckPath(fs, paths[j], kind).effects
  {
    PrefixStep(paths, j);
  }

  lemma CheckPatternsSnoc(fs: FileSystem, patterns: seq<string>, i: int, kind: Kind)
    requires 0 <= i < |patterns|
    ensures CheckPatterns(fs, patterns[..i + 1], kind).ok == (CheckPatterns(fs, patterns[..i], kind).ok && CheckPattern(fs, patterns[i], kind).ok)
    ensures CheckPatterns(fs, patterns[..i + 1], kind).effects == CheckPatterns(fs, patterns[..i], kind).effects + CheckPattern(fs, patterns[i], kind).effects
  {
    PrefixStep(patterns, i);
  }

  /** One iteration of the outer loop of `checkResources`: the glob, then
      either the invalid-glob error or every path it expanded to. */
  function CheckPattern(fs: FileSystem, pattern: string, kind: Kind): Run
  {
    match fs.glob(pattern)
    case None => Run(false, [Query(GlobCall(pattern)), Report(InvalidGlobMessage(pattern))])
    case Some(paths) => Then(Run(true, [Query(GlobCall(pattern))]), CheckPaths(fs, paths, kind))
  }

  /** The outer loop of `checkResources`: every pattern, in order. */
  function CheckPatterns(fs: FileSystem, patterns: seq<string>, kind: Kind): Run
    decreases |patterns|
  {
    if patterns == [] then Clean()
    else Then(CheckPatterns(fs, patterns[..|patterns| - 1], kind), CheckPattern(fs, patterns[|patterns| - 1], kind))
  }

  /** `if (is_string($resources)) $resources = [$resources];` */
  function Normalize(resources: Resources): seq<string>
  {
    match resources
    case Single(p) => [p]
    case Many(ps) => ps
  }

  /** The whole of `checkResources($resources, $type)` for an accepted type. */
  function CheckResourcesRun(fs: FileSystem, resources: Resources, kind: Kind): Run
  {
    CheckPatterns(fs, Normalize(resources), kind)
  }

  // ---------------------------------------------------------------------
  // Reference definitions the runs are compared with

  /** A pattern succeeds when it expands and every path it expands to passes. */
  ghost predicate PatternSucceeds(fs: FileSystem, pattern: string, kind: Kind)
  {
    fs.glob(pattern).Some? &&
    forall j :: 0 <= j < |fs.glob(pattern).value| ==> Passes(fs, fs.glob(pattern).value[j], kind)
  }

  ghost predicate AllSucceed(fs: FileSystem, patterns: seq<string>, kind: Kind)
  {
    forall i :: 0 <= i < |patterns| ==> PatternSucceeds(fs, patterns[i], kind)
  }

  /** All paths the patterns expand to, in order (failed expansions add none). */
  function Expanded(fs: FileSystem, patterns: seq<string>): seq<string>
    decreases |patterns|
  {
    if patterns == [] then []
    else
      var last := patterns[|patterns| - 1];
      Expanded(fs, patterns[..|patterns| - 1]) + (if fs.glob(last).Some? then fs.glob(last).value else [])
  }

  /** The patterns whose expansion fails, in order. */
  function InvalidGlobs(fs: FileSystem, patterns: seq<string>): seq<string>
    decreases |patterns|
  {
    if patterns == [] then []
    else
      var last := patterns[|patterns| - 1];
      InvalidGlobs(fs, patterns[..|patterns| - 1]) + (if fs.glob(last).None? then [last] else [])
  }

  /** The paths that are not of the required kind, in order. */
  function Failing(fs: FileSystem, paths: seq<string>, kind: Kind): seq<string>
    decreases |paths|
  {
    if paths == [] then []
    else
      var last := paths[|paths| - 1];
      Failing(fs, paths[..|paths| - 1], kind) + (if Passes(fs, last, kind) then [] else [last])
  }

  /** The error reported for each of `paths`, in order. */
  function MissingMessages(kind: Kind, paths: seq<string>): (messages: seq<string>)
    ensures |messages| == |paths|
    ensures forall j :: 0 <= j < |paths| ==> messages[j] == MissingMessage(kind, paths[j])
    decreases |paths|
  {
    if paths == [] then []
    else MissingMessages(kind, paths[..|paths| - 1]) + [MissingMessage(kind, paths[|paths| - 1])]
  }

  /** The errors of checking every pattern: one per failed expansion, in
      order, each followed by nothing else of that pattern; otherwise the
      missing-path errors of the paths it expanded to. */
  function ExpectedReports(fs: FileSystem, patterns: seq<string>, kind: Kind): seq<string>
    decreases |patterns|
  {
    if patterns == [] then []
    else
      var last := patterns[|patterns| - 1];
      ExpectedReports(fs, patterns[..|patterns| - 1], kind)
      + match fs.glob(last)
        case None => [InvalidGlobMessage(last)]
        case Some(paths) => MissingMessages(kind, Failing(fs, paths, kind))
  }

  // ---------------------------------------------------------------------
  // Properties of the checks

  lemma ObservedTwo(a: Effect, b: Effect, view: View)
    ensures Observed([a, b], view) == Pick(a, view) + Pick(b, view)
  {
    assert [a, b] == [a] + [b];
    ObservedOne(a, view);
    ObservedOne(b, view);
    ObservedAppend([a], [b], view);
  }

  /** The queries for one path report nothing, glob nothing, and check
      the path once (its first query). */
  lemma PathQueriesObserved(fs: FileSystem, path: string, kind: Kind)
    ensures Observed(PathQueries(fs, path, kind), Reports) == []
    ensures Observed(PathQueries(fs, path, kind), Globs) == []
    ensures Observed(PathQueries(fs, path, kind), Probes(kind)) == [path]
  {
    var q := PathQueries(fs, path, kind);
    if |q| == 1 {
      ObservedOne(q[0], Reports);
      ObservedOne(q[0], Globs);
      ObservedOne(q[0], Probes(kind));
    } else {
      ObservedTwo(q[0], q[1], Reports);
      ObservedTwo(q[0], q[1], Globs);
      ObservedTwo(q[0], q[1], Probes(kind));
    }
  }

  /** Checking one path: it passes iff it is of the kind; it never globs,
      checks that path once (its first query), and reports the missing-path error exactly when
      it fails. */
  lemma CheckPathEffects(fs: FileSystem, path: string, kind: Kind)
    ensures CheckPath(fs, path, kind).ok <==> Passes(fs, path, kind)
    ensures Observed(CheckPath(fs, path, kind).effects, Reports)
         == if Passes(fs, path, kind) then [] else [MissingMessage(kind, path)]
    ensures Observed(CheckPath(fs, path, kind).effects, Globs) == []
    ensures Observed(CheckPath(fs, path, kind).effects, Probes(kind)) == [path]
  {
    var q := PathQueries(fs, path, kind);
    PathQueriesObserved(fs, path, kind);
    if !Passes(fs, path, kind) {
      var r := Report(MissingMessage(kind, path));
      ObservedOne(r, Reports);
      ObservedOne(r, Globs);
      ObservedOne(r, Probes(kind));
      ObservedAppend(q, [r], Reports);
      ObservedAppend(q, [r], Globs);
      ObservedAppend(q, [r], Probes(kind));
    }
  }

  /** The inner loop succeeds iff every path passes, that is iff no path
      fails. */
  lemma {:induction false} CheckPathsOk(fs: FileSystem, paths: seq<string>, kind: Kind)
    ensures CheckPaths(fs, paths, kind).ok <==> forall j :: 0 <= j < |paths| ==> Passes(fs, paths[j], kind)
    ensures CheckPaths(fs, paths, kind).ok <==> Failing(fs, paths, kind) == []
    decreases |paths|
  {
    if paths != [] {
      var init := paths[..|paths| - 1];
      CheckPathsOk(fs, init, kind);
      assert forall j :: 0 <= j < |init| ==> init[j] == paths[j];
    }
  }

  lemma MissingMessagesSnoc(kind: Kind, paths: seq<string>, last: string)
    ensures MissingMessages(kind, paths + [last]) == MissingMessages(kind, paths) + [MissingMessage(kind, last)]
  {
    var all := paths + [last];
    assert all[..|all| - 1] == paths;
  }

  /** The inner loop reports the errors of the failing paths, in order. */
  lemma {:induction false} CheckPathsReports(fs: FileSystem, paths: seq<string>, kind: Kind)
    ensures Observed(CheckPaths(fs, paths, kind).effects, Reports) == MissingMessages(kind, Failing(fs, paths, kind))
    decreases |paths|
  {
    if paths != [] {
      var init, last := paths[..|paths| - 1], paths[|paths| - 1];
      var a, b := CheckPaths(fs, init, kind).effects, CheckPath(fs, last, kind).effects;
      assert CheckPaths(fs, paths, kind).effects == a + b;
      CheckPathsReports(fs, init, kind);
      CheckPathEffects(fs, last, kind);
      ObservedAppend(a, b, Reports);
      if Passes(fs, last, kind) {
        AppendEmpty(Failing(fs, init, kind));
        AppendEmpty(MissingMessages(kind, Failing(fs, init, kind)));
      } else {
        MissingMessagesSnoc(kind, Failing(fs, init, kind), last);
      }
    }
  }

  /** The inner loop never globs and checks every path once (its first
      query), in order. */
  lemma {:induction false} CheckPathsQueries(fs: FileSystem, paths: seq<string>, kind: Kind)
    ensures Observed(CheckPaths(fs, paths, kind).effects, Globs) == []
    ensures Observed(CheckPaths(fs, paths, kind).effects, Probes(kind)) == paths
    decreases |paths|
  {
    if paths != [] {
      var init, last := paths[..|paths| - 1], paths[|paths| - 1];
      var a, b := CheckPaths(fs, init, kind).effects, CheckPath(fs, last, kind).effects;
      assert CheckPaths(fs, paths, kind).effects == a + b;
      CheckPathsQueries(fs, init, kind);
      CheckPathEffects(fs, last, kind);
      ObservedAppend(a, b, Globs);
      ObservedAppend(a, b, Probes(kind));
      SnocSplit(paths);
    }
  }

  /** A pattern whose expansion fails is globbed, then reported. */
  lemma CheckInvalidPattern(fs: FileSystem, pattern: string, kind: Kind)
    requires fs.glob(pattern).None?
    ensures Observed(CheckPattern(fs, pattern, kind).effects, Reports) == [InvalidGlobMessage(pattern)]
    ensures Observed(CheckPattern(fs, pattern, kind).effects, Globs) == [pattern]
    ensures Observed(CheckPattern(fs, pattern, kind).effects, Probes(kind)) == []
  {
    var g, r := Query(GlobCall(pattern)), Report(InvalidGlobMessage(pattern));
    assert CheckPattern(fs, pattern, kind).effects == [g, r];
    ObservedTwo(g, r, Reports);
    ObservedTwo(g, r, Globs);
    ObservedTwo(g, r, Probes(kind));
  }

  /** A glob is seen only by the glob view. */
  lemma PickGlob(pattern: string, kind: Kind)
    ensures Pick(Query(GlobCall(pattern)), Reports) == []
    ensures Pick(Query(GlobCall(pattern)), Globs) == [pattern]
    ensures Pick(Query(GlobCall(pattern)), Probes(kind)) == []
  {
  }

  /** One view of a pattern that expands: the glob, then its paths. */
  lemma ExpandedPatternObserved(fs: FileSystem, pattern: string, paths: seq<string>, kind: Kind, view: View)
    requires fs.glob(pattern) == Some(paths)
    ensures Observed(CheckPattern(fs, pattern, kind).effects, view)
         == Pick(Query(GlobCall(pattern)), view) + Observed(CheckPaths(fs, paths, kind).effects, view)
  {
    var g, b := Query(GlobCall(pattern)), CheckPaths(fs, paths, kind).effects;
    assert CheckPattern(fs, pattern, kind).effects == [g] + b;
    ObservedOne(g, view);
    ObservedAppend([g], b, view);
  }

  /** A pattern that expands is globbed, then its paths are checked. */
  lemma CheckExpandedPattern(fs: FileSystem, pattern: string, paths: seq<string>, kind: Kind)
    requires fs.glob(pattern) == Some(paths)
    ensures Observed(CheckPattern(fs, pattern, kind).effects, Reports) == MissingMessages(kind, Failing(fs, paths, kind))
    ensures Observed(CheckPattern(fs, pattern, kind).effects, Globs) == [pattern]
    ensures Observed(CheckPattern(fs, pattern, kind).effects, Probes(kind)) == paths
  {
    CheckPathsReports(fs, paths, kind);
    CheckPathsQueries(fs, paths, kind);
    ExpandedPatternObserved(fs, pattern, paths, kind, Reports);
    ExpandedPatternObserved(fs, pattern, paths, kind, Globs);
    ExpandedPatternObserved(fs, pattern, paths, kind, Probes(kind));
    PickGlob(pattern, kind);
    AppendEmpty([pattern]);
    AppendEmpty(paths);
    AppendEmpty(MissingMessages(kind, Failing(fs, paths, kind)));
  }

  /** One pattern: it succeeds iff it expands and every path passes; it is
      globbed once, before anything else, then every path it expands to is
      checked once (its first query). */
  lemma CheckPatternEffects(fs: FileSystem, pattern: string, kind: Kind)
    ensures CheckPattern(fs, pattern, kind).ok <==> PatternSucceeds(fs, pattern, kind)
    ensures CheckPattern(fs, pattern, kind).effects[0] == Query(GlobCall(pattern))
    ensures Observed(CheckPattern(fs, pattern, kind).effects, Reports)
         == match fs.glob(pattern)
            case None => [InvalidGlobMessage(pattern)]
            case Some(paths) => MissingMessages(kind, Failing(fs, paths, kind))
    ensures Observed(CheckPattern(fs, pattern, kind).effects, Globs) == [pattern]
    ensures Observed(CheckPattern(fs, pattern, kind).effects, Probes(kind))
         == if fs.glob(pattern).Some? then fs.glob(pattern).value else []
  {
    match fs.glob(pattern)
    case None =>
      CheckInvalidPattern(fs, pattern, kind);
    case Some(paths) =>
      CheckPathsOk(fs, paths, kind);
      CheckExpandedPattern(fs, pattern, paths, kind);
  }

  lemma AllSucceedSnoc(fs: FileSystem, patterns: seq<string>, kind: Kind)
    requires patterns != []
    ensures AllSucceed(fs, patterns, kind)
        <==> AllSucceed(fs, patterns[..|patterns| - 1], kind) && PatternSucceeds(fs, patterns[|patterns| - 1], kind)
  {
    var init := patterns[..|patterns| - 1];
    assert forall i :: 0 <= i < |init| ==> init[i] == patterns[i];
  }

  /** Aggregate result: `checkResources` is true iff every expansion
      succeeded and every resolved path passed. */
  lemma {:induction false} CheckPatternsOk(fs: FileSystem, patterns: seq<string>, kind: Kind)
    ensures CheckPatterns(fs, patterns, kind).ok <==> AllSucceed(fs, patterns, kind)
    decreases |patterns|
  {
    if patterns != [] {
      var init, last := patterns[..|patterns| - 1], patterns[|patterns| - 1];
      CheckPatternsOk(fs, init, kind);
      CheckPatternEffects(fs, last, kind);
      AllSucceedSnoc(fs, patterns, kind);
    }
  }

  /** The errors of `checkResources` are exactly the expected ones, in input
      order, so it is true iff it reported nothing. */
  lemma {:induction false} CheckPatternsReports(fs: FileSystem, patterns: seq<string>, kind: Kind)
    ensures Observed(CheckPatterns(fs, patterns, kind).effects, Reports) == ExpectedReports(fs, patterns, kind)
    ensures CheckPatterns(fs, patterns, kind).ok <==> ExpectedReports(fs, patterns, kind) == []
    decreases |patterns|
  {
    if patterns != [] {
      var init, last := patterns[..|patterns| - 1], patterns[|patterns| - 1];
      var a, b := CheckPatterns(fs, init, kind).effects, CheckPattern(fs, last, kind).effects;
      CheckPatternsReports(fs, init, kind);
      CheckPatternEffects(fs, last, kind);
      ObservedAppend(a, b, Reports);
      if fs.glob(last).Some? {
        CheckPathsOk(fs, fs.glob(last).value, kind);
      }
    }
  }

  /** No short-circuit, traced: every pattern is globbed, in input order, and
      every path the expansions resolve to is checked, in order. */
  lemma {:induction false} CheckPatternsCalls(fs: FileSystem, patterns: seq<string>, kind: Kind)
    ensures Observed(CheckPatterns(fs, patterns, kind).effects, Globs) == patterns
    ensures Observed(CheckPatterns(fs, patterns, kind).effects, Probes(kind)) == Expanded(fs, patterns)
    decreases |patterns|
  {
    if patterns != [] {
      var init, last := patterns[..|patterns| - 1], patterns[|patterns| - 1];
      var a, b := CheckPatterns(fs, init, kind).effects, CheckPattern(fs, last, kind).effects;
      assert CheckPatterns(fs, patterns, kind).effects == a + b;
      CheckPatternsCalls(fs, init, kind);
      CheckPatternEffects(fs, last, kind);
      ObservedAppend(a, b, Globs);
      ObservedAppend(a, b, Probes(kind));
      SnocSplit(patterns);
    }
  }

  /** A failed expansion reports one error and the others none, so the count
      of errors is one per failed expansion plus one per resolved path that
      is not of the required kind. */
  lemma {:induction false} ExpectedReportsCount(fs: FileSystem, patterns: seq<string>, kind: Kind)
    ensures |ExpectedReports(fs, patterns, kind)| == |InvalidGlobs(fs, patterns)| + |Failing(fs, Expanded(fs, patterns), kind)|
    decreases |patterns|
  {
    if patterns != [] {
      var init, last := patterns[..|patterns| - 1], patterns[|patterns| - 1];
      ExpectedReportsCount(fs, init, kind);
      match fs.glob(last)
      case Some(paths) =>
        FailingAppend(fs, Expanded(fs, init), paths, kind);
      case None =>
        AppendEmpty(Expanded(fs, init));
    }
  }

  lemma {:induction false} FailingAppend(fs: FileSystem, a: seq<string>, b: seq<string>, kind: Kind)
    ensures Failing(fs, a + b, kind) == Failing(fs, a, kind) + Failing(fs, b, kind)
    decreases |b|
  {
    if b == [] {
      AppendEmpty(a);
    } else {
      InitOfAppend(a, b);
      FailingAppend(fs, a, b[..|b| - 1], kind);
      var last := b[|b| - 1];
      AppendAssoc(Failing(fs, a, kind), Failing(fs, b[..|b| - 1], kind), if Passes(fs, last, kind) then [] else [last]);
    }
  }

  /** A pattern that expands to nothing reports nothing and does not fail. */
  lemma EmptyExpansionPasses(fs: FileSystem, pattern: string, kind: Kind)
    requires fs.glob(pattern) == Some([])
    ensures CheckPattern(fs, pattern, kind) == Run(true, [Query(GlobCall(pattern))])
  {
  }

  /** A single string behaves exactly like the one-element list holding it. */
  lemma SingleIsSingleton(fs: FileSystem, pattern: string, kind: Kind)
    ensures CheckResourcesRun(fs, Single(pattern), kind) == CheckResourcesRun(fs, Many([pattern]), kind)
    ensures CheckResourcesRun(fs, Single(pattern), kind) == CheckPattern(fs, pattern, kind)
  {
    var run := CheckPattern(fs, pattern, kind);
    SingletonInit(pattern);
    assert CheckPatterns(fs, [pattern], kind) == Then(Clean(), run);
    AppendEmpty(run.effects);
  }

  /** "file" is `file_exists`, so on a real filesystem a directory passes it. */
  lemma DirectoryPassesFileCheck(fs: FileSystem, path: string)
    requires Consistent(fs) && fs.isDir(path)
    ensures CheckPath(fs, path, File).ok
  {
  }

  /** One pattern as the doc comment of `checkResources` describes the check
      ("is a file or folder"): a pattern that expands to nothing is checked
      as a path itself, so a literal path that does not exist is reported. */
  function CheckPatternOrLiteral(fs: FileSystem, pattern: string, kind: Kind): Run
  {
    match fs.glob(pattern)
    case None => Run(false, [Query(GlobCall(pattern)), Report(InvalidGlobMessage(pattern))])
    case Some(paths) =>
      Then(Run(true, [Query(GlobCall(pattern))]),
           if paths == [] then CheckPath(fs, pattern, kind) else CheckPaths(fs, paths, kind))
  }

  /** The corrected check agrees with the code on every pattern that fails
      to expand or expands to some path; a pattern that expands to nothing
      succeeds iff it is itself of the kind, and otherwise reports it. */
  lemma CheckPatternOrLiteralReportsMissing(fs: FileSystem, pattern: string, kind: Kind)
    ensures fs.glob(pattern) != Some([]) ==> CheckPatternOrLiteral(fs, pattern, kind) == CheckPattern(fs, pattern, kind)
    ensures fs.glob(pattern) == Some([]) ==>
              (CheckPatternOrLiteral(fs, pattern, kind).ok <==> Passes(fs, pattern, kind))
    ensures fs.glob(pattern) == Some([]) ==>
              Observed(CheckPatternOrLiteral(fs, pattern, kind).effects, Reports)
              == if Passes(fs, pattern, kind) then [] else [MissingMessage(kind, pattern)]
  {
    if fs.glob(pattern) == Some([]) {
      var g := Query(GlobCall(pattern));
      CheckPathEffects(fs, pattern, kind);
      ObservedOne(g, Reports);
      ObservedAppend([g], CheckPath(fs, pattern, kind).effects, Reports);
    }
  }

  /** The check as written passes a literal path that does not exist: `glob`
      expands it to nothing, so it is never checked. The corrected check
      reports it. */
  lemma MissingLiteralPathPasses(fs: FileSystem, path: string, kind: Kind)
    requires fs.glob(path) == Some([])
    requires !fs.fileExists(path) && !fs.isDir(path)
    ensures !Passes(fs, path, kind)
    ensures CheckResourcesRun(fs, Single(path), kind).ok
    ensures Observed(CheckResourcesRun(fs, Single(path), kind).effects, Reports) == []
    ensures !CheckPatternOrLiteral(fs, path, kind).ok
    ensures Observed(CheckPatternOrLiteral(fs, path, kind).effects, Reports) == [MissingMessage(kind, path)]
  {
    SingleIsSingleton(fs, path, kind);
    EmptyExpansionPasses(fs, path, kind);
    ObservedOne(Query(GlobCall(path)), Reports);
    CheckPatternOrLiteralReportsMissing(fs, path, kind);
  }

  /** On a real filesystem "fileAndDir" accepts exactly what "file" accepts,
      and it fails only when both `is_dir` and `file_exists` are false. */
  lemma FileAndDirAgreesWithFile(fs: FileSystem, path: string)
    ensures !CheckPath(fs, path, FileAndDir).ok <==> !fs.isDir(path) && !fs.fileExists(path)
    ensures Consistent(fs) ==> CheckPath(fs, path, FileAndDir).ok == CheckPath(fs, path, File).ok
  {
  }

  /** When the glob lists only existing paths, a "fileAndDir" check can fail
      only through an expansion error: it succeeds iff every pattern expands. */
  lemma SoundGlobFailsOnlyOnInvalid(fs: FileSystem, patterns: seq<string>)
    requires GlobSound(fs)
    ensures CheckPatterns(fs, patterns, FileAndDir).ok <==> forall i :: 0 <= i < |patterns| ==> fs.glob(patterns[i]).Some?
  {
    CheckPatternsOk(fs, patterns, FileAndDir);
  }

  // ---------------------------------------------------------------------
  // The source => target helper

  function DigitChar(d: nat): char
    requires d < 10
  {
    "0123456789"[d]
  }

  function NatToString(n: nat): string
    decreases n
  {
    if n < 10 then [DigitChar(n)] else NatToString(n / 10) + [DigitChar(n % 10)]
  }

  /** PHP's conversion of an array key to the string `glob` receives. */
  function KeyString(key: Key): string
  {
    match key
    case StrKey(s) => s
    case IntKey(i) => if i < 0 then "-" + NatToString(-i) else NatToString(i)
  }

  /** The array iterated: a string becomes `[0 => $string]`. */
  function PairEntries(input: PairsInput): seq<(Key, string)>
  {
    match input
    case OneString(s) => [(IntKey(0), s)]
    case Entries(es) => es
  }

  /** The sources: the keys, in iteration order. */
  function SourcePaths(input: PairsInput): (sources: seq<string>)
    ensures |sources| == |PairEntries(input)|
    ensures forall i :: 0 <= i < |sources| ==> sources[i] == KeyString(PairEntries(input)[i].0)
  {
    var es := PairEntries(input);
    seq(|es|, i requires 0 <= i < |es| => KeyString(es[i].0))
  }

  /** The targets: the values, in iteration order. */
  function TargetPaths(input: PairsInput): (targets: seq<string>)
    ensures |targets| == |PairEntries(input)|
    ensures forall i :: 0 <= i < |targets| ==> targets[i] == PairEntries(input)[i].1
  {
    var es := PairEntries(input);
    seq(|es|, i requires 0 <= i < |es| => es[i].1)
  }

  /** `checkSourceAndTargetResource` as written: `$targets` never receives a
      value, so its second `checkResources` call is on an empty list. */
  function SourceAndTargetRun(fs: FileSystem, input: PairsInput): Run
  {
    Then(CheckPatterns(fs, SourcePaths(input), FileAndDir), CheckPatterns(fs, [], FileAndDir))
  }

  /** The helper as evidently intended: sources and targets both checked. */
  function IntendedSourceAndTargetRun(fs: FileSystem, input: PairsInput): Run
  {
    Then(CheckPatterns(fs, SourcePaths(input), FileAndDir), CheckPatterns(fs, TargetPaths(input), FileAndDir))
  }

  /** As written, the helper checks the sources only and targets are never
      looked at. */
  lemma SourceAndTargetChecksSourcesOnly(fs: FileSystem, input: PairsInput)
    ensures SourceAndTargetRun(fs, input).ok <==> AllSucceed(fs, SourcePaths(input), FileAndDir)
    ensures Observed(SourceAndTargetRun(fs, input).effects, Reports) == ExpectedReports(fs, SourcePaths(input), FileAndDir)
    ensures Observed(SourceAndTargetRun(fs, input).effects, Globs) == SourcePaths(input)
  {
    var run := CheckPatterns(fs, SourcePaths(input), FileAndDir);
    CheckPatternsOk(fs, SourcePaths(input), FileAndDir);
    CheckPatternsReports(fs, SourcePaths(input), FileAndDir);
    CheckPatternsCalls(fs, SourcePaths(input), FileAndDir);
    AppendEmpty(run.effects);
  }

  /** A single string given to the helper is checked as the path "0" (its
      array key), not as the string itself. */
  lemma StringPairInputChecksKeyZero(fs: FileSystem, s: string)
    ensures SourcePaths(OneString(s)) == ["0"]
    ensures Observed(SourceAndTargetRun(fs, OneString(s)).effects, Globs) == ["0"]
  {
    SourceAndTargetChecksSourcesOnly(fs, OneString(s));
  }

  /** The intended helper succeeds iff every source and every target passes,
      reports the errors of the sources then those of the targets, and globs
      every source then every target. */
  lemma IntendedRunChecksBoth(fs: FileSystem, input: PairsInput)
    ensures IntendedSourceAndTargetRun(fs, input).ok
        <==> AllSucceed(fs, SourcePaths(input), FileAndDir) && AllSucceed(fs, TargetPaths(input), FileAndDir)
    ensures Observed(IntendedSourceAndTargetRun(fs, input).effects, Reports)
         == ExpectedReports(fs, SourcePaths(input), FileAndDir) + ExpectedReports(fs, TargetPaths(input), FileAndDir)
    ensures Observed(IntendedSourceAndTargetRun(fs, input).effects, Globs) == SourcePaths(input) + TargetPaths(input)
  {
    var a := CheckPatterns(fs, SourcePaths(input), FileAndDir).effects;
    var b := CheckPatterns(fs, TargetPaths(input), FileAndDir).effects;
    CheckPatternsOk(fs, SourcePaths(input), FileAndDir);
    CheckPatternsOk(fs, TargetPaths(input), FileAndDir);
    CheckPatternsReports(fs, SourcePaths(input), FileAndDir);
    CheckPatternsReports(fs, TargetPaths(input), FileAndDir);
    CheckPatternsCalls(fs, SourcePaths(input), FileAndDir);
    CheckPatternsCalls(fs, TargetPaths(input), FileAndDir);
    ObservedAppend(a, b, Reports);
    ObservedAppend(a, b, Globs);
  }

  /** A filesystem holding the file "src/a.txt" and nothing else. Its glob
      lists only that file and fails (as `glob()` returning `false`) on
      "dist/a.txt"; every other pattern expands to nothing. */
  function TargetGlobFailsFs(): FileSystem
  {
    FileSystem(
      p => if p == "src/a.txt" then Some(["src/a.txt"]) else if p == "dist/a.txt" then None else Some([]),
      p => p == "src/a.txt",
      p => false)
  }

  function SourceAndTargetInput(): PairsInput
  {
    Entries([(StrKey("src/a.txt"), "dist/a.txt")])
  }

  /** The expected errors of one pattern that expands to itself. */
  lemma ExpectedReportsOfLiteral(fs: FileSystem, path: string, kind: Kind)
    requires fs.glob(path) == Some([path])
    ensures ExpectedReports(fs, [path], kind) == if Passes(fs, path, kind) then [] else [MissingMessage(kind, path)]
  {
    SingletonInit(path);
    AppendEmpty(MissingMessages(kind, Failing(fs, [path], kind)));
    assert Failing(fs, [path], kind) == if Passes(fs, path, kind) then [] else [path];
  }

  /** The expected errors of one pattern whose expansion fails. */
  lemma ExpectedReportsOfInvalid(fs: FileSystem, pattern: string, kind: Kind)
    requires fs.glob(pattern).None?
    ensures ExpectedReports(fs, [pattern], kind) == [InvalidGlobMessage(pattern)]
  {
    SingletonInit(pattern);
  }

  /** The witness filesystem is one a real `glob` could produce. */
  lemma TargetGlobFailsFsIsSound()
    ensures GlobSound(TargetGlobFailsFs())
  {
    var fs := TargetGlobFailsFs();
    forall p | fs.glob(p).Some?
      ensures forall j :: 0 <= j < |fs.glob(p).value| ==> fs.fileExists(fs.glob(p).value[j]) || fs.isDir(fs.glob(p).value[j])
    {
      if p == "src/a.txt" {
        assert fs.glob(p).value == ["src/a.txt"];
      } else if p != "dist/a.txt" {
        assert fs.glob(p).value == [];
      }
    }
  }

  /** The witness paths, read off the witness input and filesystem. */
  lemma TargetGlobFailsFacts()
    ensures SourcePaths(SourceAndTargetInput()) == ["src/a.txt"]
    ensures TargetPaths(SourceAndTargetInput()) == ["dist/a.txt"]
    ensures ExpectedReports(TargetGlobFailsFs(), ["src/a.txt"], FileAndDir) == []
    ensures ExpectedReports(TargetGlobFailsFs(), ["dist/a.txt"], FileAndDir) == [InvalidGlobMessage("dist/a.txt")]
    ensures AllSucceed(TargetGlobFailsFs(), ["src/a.txt"], FileAndDir)
    ensures !AllSucceed(TargetGlobFailsFs(), ["dist/a.txt"], FileAndDir)
  {
    var fs := TargetGlobFailsFs();
    var input := SourceAndTargetInput();
    assert SourcePaths(input) == ["src/a.txt"];
    assert TargetPaths(input) == ["dist/a.txt"];
    assert "dist/a.txt"[0] != "src/a.txt"[0];
    assert fs.glob("src/a.txt") == Some(["src/a.txt"]);
    assert fs.glob("dist/a.txt") == None;
    assert Passes(fs, "src/a.txt", FileAndDir);
    assert !PatternSucceeds(fs, "dist/a.txt", FileAndDir);
    ExpectedReportsOfLiteral(fs, "src/a.txt", FileAndDir);
    ExpectedReportsOfInvalid(fs, "dist/a.txt", FileAndDir);
  }

  /** The defect at the typo, on a filesystem whose glob lists only existing
      paths: the target's expansion fails, yet the helper as written globs
      the source alone, succeeds and reports nothing, while the intended
      helper also globs the target, fails and reports the invalid glob. */
  lemma FailingTargetGoesUnreported()
    ensures GlobSound(TargetGlobFailsFs())
    ensures !AllSucceed(TargetGlobFailsFs(), TargetPaths(SourceAndTargetInput()), FileAndDir)
    ensures SourceAndTargetRun(TargetGlobFailsFs(), SourceAndTargetInput()).ok
    ensures Observed(SourceAndTargetRun(TargetGlobFailsFs(), SourceAndTargetInput()).effects, Reports) == []
    ensures Observed(SourceAndTargetRun(TargetGlobFailsFs(), SourceAndTargetInput()).effects, Globs) == ["src/a.txt"]
    ensures !IntendedSourceAndTargetRun(TargetGlobFailsFs(), SourceAndTargetInput()).ok
    ensures Observed(IntendedSourceAndTargetRun(TargetGlobFailsFs(), SourceAndTargetInput()).effects, Reports)
         == [InvalidGlobMessage("dist/a.txt")]
    ensures Observed(IntendedSourceAndTargetRun(TargetGlobFailsFs(), SourceAndTargetInput()).effects, Globs)
         == ["src/a.txt", "dist/a.txt"]
  {
    TargetGlobFailsFsIsSound();
    TargetGlobFailsFacts();
    SourceAndTargetChecksSourcesOnly(TargetGlobFailsFs(), SourceAndTargetInput());
    IntendedRunChecksBoth(TargetGlobFailsFs(), SourceAndTargetInput());
  }

  // ---------------------------------------------------------------------
  // The trait, as a class over the filesystem oracles

  /** A task using the checker: it reads the filesystem and reports task
      errors; `trace` is every filesystem query made and every error given
      to `printTaskError` so far, in order. */
  class ResourceExistenceChecker {
    const fs: FileSystem
    var trace: seq<Effect>

    constructor (fs: FileSystem)
      ensures this.fs == fs && trace == []
    {
      this.fs := fs;
      trace := [];
    }

    /** `printTaskError($message, $this)`. */
    method PrintTaskError(message: string)
      modifies this`trace
      ensures trace == old(trace) + [Report(message)]
    {
      trace := trace + [Report(message)];
    }

    /** PHP's `glob($pattern)`. */
    method Glob(pattern: string) returns (paths: Option<seq<string>>)
      modifies this`trace
      ensures paths == fs.glob(pattern)
      ensures trace == old(trace) + [Query(GlobCall(pattern))]
    {
      paths := fs.glob(pattern);
      trace := trace + [Query(GlobCall(pattern))];
    }

    /** `isDir`: a wrapper around `is_dir`. */
    method IsDir(directory: string) returns (b: bool)
      modifies this`trace
      ensures b == fs.isDir(directory)
      ensures trace == old(trace) + [Query(IsDirCall(directory))]
    {
      b := fs.isDir(directory);
      trace := trace + [Query(IsDirCall(directory))];
    }

    /** `isFile`: a wrapper around `file_exists`, true for directories too. */
    method IsFile(file: string) returns (b: bool)
      modifies this`trace
      ensures b == fs.fileExists(file)
      ensures trace == old(trace) + [Query(FileExistsCall(file))]
    {
      b := fs.fileExists(file);
      trace := trace + [Query(FileExistsCall(file))];
    }

    /** `checkResource($resource, $type)`: one error and false iff the path
        is not of the required kind. An unknown type matches no case of the
        switch; PHP then returns null, modelled as false, and nothing is
        queried or reported. */
    method CheckResource(resource: string, typeName: string) returns (ok: bool)
      modifies this`trace
      ensures ParseKind(typeName).None? ==> !ok && trace == old(trace)
      ensures ParseKind(typeName).Some? ==>
        var run := CheckPath(fs, resource, ParseKind(typeName).value);
        ok == run.ok && trace == old(trace) + run.effects
    {
      if typeName == "file" {
        var found := IsFile(resource);
        if !found {
          PrintTaskError("File \"" + resource + "\" does not exist!");
          return false;
        }
        return true;
      } else if typeName == "dir" {
        var isDir := IsDir(resource);
        if !isDir {
          PrintTaskError("Directory \"" + resource + "\" does not exist!");
          return false;
        }
        return true;
      } else if typeName == "fileAndDir" {
        var isDir := IsDir(resource);
        var missing := !isDir;
        if missing {
          var isFile := IsFile(resource);
          missing := !isFile;
        }
        if missing {
          PrintTaskError("File or directory \"" + resource + "\" does not exist!");
          return false;
        }
        return true;
      }
      ok := false;
    }

    /** The inner loop of `checkResources`: `checkResource` on every path one
        expansion resolved to, without stopping at a failure. */
    method CheckExpansion(paths: seq<string>, typeName: string) returns (allPassed: bool)
      requires ParseKind(typeName).Some?
      modifies this`trace
      ensures var run := CheckPaths(fs, paths, ParseKind(typeName).value);
        allPassed == run.ok && trace == old(trace) + run.effects
    {
      ghost var kind := ParseKind(typeName).value;
      allPassed := true;
      var j := 0;
      while j < |paths|
        invariant 0 <= j <= |paths|
        invariant allPassed == CheckPaths(fs, paths[..j], kind).ok
        invariant trace == old(trace) + CheckPaths(fs, paths[..j], kind).effects
      {
        CheckPathsSnoc(fs, paths, j, kind);
        AppendAssoc(old(trace), CheckPaths(fs, paths[..j], kind).effects, CheckPath(fs, paths[j], kind).effects);
        var ok := CheckResource(paths[j], typeName);
        if !ok {
          allPassed := false;
        }
        j := j + 1;
      }
      PrefixFull(paths);
    }

    /** One iteration of the outer loop of `checkResources`: glob the
        pattern, then report the invalid glob or check every path it
        expanded to. */
    method CheckGlob(pattern: string, typeName: string) returns (passed: bool)
      requires ParseKind(typeName).Some?
      modifies this`trace
      ensures var run := CheckPattern(fs, pattern, ParseKind(typeName).value);
        passed == run.ok && trace == old(trace) + run.effects
    {
      var glob := Glob(pattern);
      if glob.None? {
        PrintTaskError(InvalidGlobMessage(pattern));
        return false;
      }
      passed := CheckExpansion(glob.value, typeName);
      AppendAssoc(old(trace), [Query(GlobCall(pattern))], CheckPaths(fs, glob.value, ParseKind(typeName).value).effects);
    }

    /** `checkResources($resources, $type)`. An unknown type throws before
        any filesystem query or report; otherwise every pattern is globbed,
        every resolved path checked, and the result is the fold of all. */
    method CheckResources(resources: Resources, typeName: string := "fileAndDir") returns (outcome: CheckOutcome)
      modifies this`trace
      ensures ParseKind(typeName).None? ==>
        outcome == InvalidArgument(InvalidTypeMessage(typeName)) && trace == old(trace)
      ensures ParseKind(typeName).Some? ==>
        var run := CheckResourcesRun(fs, resources, ParseKind(typeName).value);
        outcome == Returned(run.ok) && trace == old(trace) + run.effects
    {
      var kind := ParseKind(typeName);
      if kind.None? {
        return InvalidArgument(InvalidTypeMessage(typeName));
      }
      var patterns := Normalize(resources);
      var success := true;
      var i := 0;
      while i < |patterns|
        invariant 0 <= i <= |patterns|
        invariant success == CheckPatterns(fs, patterns[..i], kind.value).ok
        invariant trace == old(trace) + CheckPatterns(fs, patterns[..i], kind.value).effects
      {
        CheckPatternsSnoc(fs, patterns, i, kind.value);
        AppendAssoc(old(trace), CheckPatterns(fs, patterns[..i], kind.value).effects, CheckPattern(fs, patterns[i], kind.value).effects);
        var passed := CheckGlob(patterns[i], typeName);
        success := success && passed;
        i := i + 1;
      }
      PrefixFull(patterns);
      outcome := Returned(success);
    }

    /** `checkSourceAndTargetResource($resources)` as written: the sources are
        the keys in iteration order; the typo `$target[] = $target` appends to
        the loop variable, so `$targets` stays empty; nothing is returned. */
    method CheckSourceAndTargetResource(resources: PairsInput)
      modifies this`trace
      ensures trace == old(trace) + SourceAndTargetRun(fs, resources).effects
    {
      var entries := PairEntries(resources);
      var sources: seq<string> := [];
      var targets: seq<string> := [];
      var i := 0;
      while i < |entries|
        invariant 0 <= i <= |entries|
        invariant sources == SourcePaths(resources)[..i]
        invariant targets == []
        invariant trace == old(trace)
      {
        PrefixSnoc(SourcePaths(resources), i);
        sources := sources + [KeyString(entries[i].0)];
        i := i + 1;
      }
      PrefixFull(SourcePaths(resources));
      assert ParseKind("fileAndDir") == Some(FileAndDir);
      var _ := CheckResources(Many(sources));
      var _ := CheckResources(Many(targets));
      AppendAssoc(old(trace), CheckPatterns(fs, sources, FileAndDir).effects, CheckPatterns(fs, targets, FileAndDir).effects);
    }

    /** The helper with the typo corrected (`$targets[] = $target`): the
        targets are the values, and both lists are checked. */
    method CheckSourceAndTargetPairs(resources: PairsInput)
      modifies this`trace
      ensures trace == old(trace) + IntendedSourceAndTargetRun(fs, resources).effects
    {
      var entries := PairEntries(resources);
      var sources: seq<string> := [];
      var targets: seq<string> := [];
      var i := 0;
      while i < |entries|
        invariant 0 <= i <= |entries|
        invariant sources == SourcePaths(resources)[..i]
        invariant targets == TargetPaths(resources)[..i]
        invariant trace == old(trace)
      {
        PrefixSnoc(SourcePaths(resources), i);
        PrefixSnoc(TargetPaths(resources), i);
        sources := sources + [KeyString(entries[i].0)];
        targets := targets + [entries[i].1];
        i := i + 1;
      }
      PrefixFull(SourcePaths(resources));
      assert ParseKind("fileAndDir") == Some(FileAndDir);
      PrefixFull(TargetPaths(resources));
      var _ := CheckResources(Many(sources));
      var _ := CheckResources(Many(targets));
      AppendAssoc(old(trace), CheckPatterns(fs, sources, FileAndDir).effects, CheckPatterns(fs, targets, FileAndDir).effects);
    }
  }
}
