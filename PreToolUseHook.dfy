/**
 * The context-aware pre-tool-use hook: it rewrites relative file paths to absolute ones, blocks
 * file tools on system paths and edits of missing files, and hands Grep and Glob calls with
 * complicated patterns to an analysis agent.
 *
 * Whether a file exists, the working directory and the last user message of the transcript are
 * parameters.
 */
module PreToolUseHook {
  import opened Basics
  import opened Strings

  /**
   * The `tool_input` keys the hook reads. The two path keys keep `null` apart from absence, since
   * the rewrite goes to `notebook_path` whenever that key is present; for `pattern` and `type` a
   * `null` behaves as absence and is `None`.
   */
  datatype ToolArgs = ToolArgs(
    filePath: Field<string>,
    notebookPath: Field<string>,
    pattern: Option<string>,
    flags: string,          // `tool_args.get('flags', '')`
    glob: string,           // `str(tool_args.get('glob', ''))`
    fileType: Option<string>,
    path: string)           // `str(tool_args.get('path', ''))`

  /** The dictionary the hook prints. */
  datatype Decision =
    | Continue
    | Modify(modifiedArgs: ToolArgs)
    | Block(reason: string)
    | Delegate(toolName: string, toolArgs: ToolArgs)

  const FILE_TOOLS: set<string> := {"Read", "Write", "Edit", "MultiEdit", "NotebookEdit"}
  const SEARCH_TOOLS: set<string> := {"Grep", "Glob"}
  const DANGEROUS_PATHS: seq<string> := ["/etc", "/sys", "/proc", "/dev"]
  const COMPLEXITY_THRESHOLD := 60

  // ---------------------------------------------------------------------------------------------
  // calculate_pattern_complexity

  /** One `(condition, points, explanation)` entry of the scoring tables. */
  datatype Factor = Factor(holds: bool, points: int)

  /** `base_factors` */
  function BaseFactors(pattern: string): seq<Factor>
  {
    [
      Factor(|pattern| > 50, 15),
      Factor(|pattern| > 100, 10),
      Factor(CountChar(pattern, '(') > 2, 20),
      Factor(CountChar(pattern, '[') > 1, 15),
      Factor('|' in pattern, 10)
    ]
  }

  /** `advanced_features` */
  function AdvancedFeatures(pattern: string): seq<Factor>
  {
    [
      Factor(Contains(pattern, "(?=") || Contains(pattern, "(?!"), 25),
      Factor(Contains(pattern, "(?<=") || Contains(pattern, "(?<!"), 25),
      Factor(Contains(pattern, "\\b") || Contains(pattern, "\\B"), 10),
      Factor(Contains(pattern, "\\d+") || Contains(pattern, "\\w+"), 5),
      Factor(CountChar(pattern, '*') + CountChar(pattern, '+') > 3, 15),
      Factor(Contains(pattern, "\\..*\\."), 12),
      Factor(CountChar(pattern, '\\') > 5, 10)
    ]
  }

  /** `contextual_factors` */
  function ContextualFactors(args: ToolArgs): seq<Factor>
  {
    [
      Factor(Contains(args.flags, "multiline"), 8),
      Factor(Contains(args.glob, "recursive"), 12),
      Factor(args.fileType.Some? && args.fileType.value in {"py", "js", "ts", "go"}, 5),
      Factor(|Split(args.path, '/')| > 5, 8)
    ]
  }

  /** `simplifying_factors`, each taking points away. */
  function SimplifyingFactors(pattern: string): seq<Factor>
  {
    [
      Factor(IsAlnum(pattern), -10),
      Factor(|pattern| < 10 && CountChar(pattern, '\\') == 0, -8),
      Factor(pattern in {"TODO", "FIXME", "BUG", "HACK"}, -15)
    ]
  }

  /** The factors of the first scoring loop. */
  function Boosts(pattern: string, args: ToolArgs): seq<Factor>
  {
    BaseFactors(pattern) + AdvancedFeatures(pattern) + ContextualFactors(args)
  }

  /** What one factor adds to the score. */
  function Earned(f: Factor): int
  {
    if f.holds then f.points else 0
  }

  /** The points of the factors whose condition holds. */
  function Points(factors: seq<Factor>): int
  {
    if |factors| == 0 then 0 else Points(factors[..|factors| - 1]) + Earned(factors[|factors| - 1])
  }

  /** The unclamped score: every holding factor's points, summed. */
  function RawScore(pattern: string, args: ToolArgs): int
  {
    Points(Boosts(pattern, args)) + Points(SimplifyingFactors(pattern))
  }

  /** The score clamped to 0..100. */
  function Complexity(pattern: string, args: ToolArgs): (score: int)
    ensures 0 <= score <= 100
    ensures 0 <= RawScore(pattern, args) <= 100 ==> score == RawScore(pattern, args)
  {
    Max(0, Min(100, RawScore(pattern, args)))
  }

  /** Sums the points of the holding factors, as each scoring loop does. */
  method SumPoints(factors: seq<Factor>, start: int) returns (total: int)
    ensures total == start + Points(factors)
  {
    total := start;
    for i := 0 to |factors|
      invariant total == start + Points(factors[..i])
    {
      if factors[i].holds {
        total := total + factors[i].points;
      }
      assert factors[..i + 1][..i] == factors[..i];
    }
    assert factors[..|factors|] == factors;
  }

  /** `calculate_pattern_complexity`: the clamped sum of the points of every holding factor. */
  method CalculatePatternComplexity(pattern: string, args: ToolArgs) returns (score: int)
    ensures score == Complexity(pattern, args)
    ensures 0 <= score <= 100
  {
    var raised := SumPoints(Boosts(pattern, args), 0);
    var total := SumPoints(SimplifyingFactors(pattern), raised);
    score := Max(0, Min(100, total));
  }

  lemma {:induction false} PointsAppend(xs: seq<Factor>, ys: seq<Factor>)
    ensures Points(xs + ys) == Points(xs) + Points(ys)
    decreases |ys|
  {
    if |ys| == 0 {
      assert xs + ys == xs;
    } else {
      PointsAppend(xs, ys[..|ys| - 1]);
      assert (xs + ys)[..|xs + ys| - 1] == xs + ys[..|ys| - 1];
    }
  }

  /** The raw score is the sum over the four factor tables. */
  lemma RawScoreByTable(pattern: string, args: ToolArgs)
    ensures RawScore(pattern, args) ==
              Points(BaseFactors(pattern)) + Points(AdvancedFeatures(pattern)) +
              Points(ContextualFactors(args)) + Points(SimplifyingFactors(pattern))
  {
    PointsAppend(BaseFactors(pattern) + AdvancedFeatures(pattern), ContextualFactors(args));
    PointsAppend(BaseFactors(pattern), AdvancedFeatures(pattern));
  }

  lemma Points3(a: Factor, b: Factor, c: Factor)
    ensures Points([a, b, c]) == Earned(a) + Earned(b) + Earned(c)
  {
    assert [a][..0] == [];
    assert Points([a]) == Earned(a);
    assert [a, b][..1] == [a];
    assert Points([a, b]) == Earned(a) + Earned(b);
    assert [a, b, c][..2] == [a, b];
  }

  lemma Points4(a: Factor, b: Factor, c: Factor, d: Factor)
    ensures Points([a, b, c, d]) == Earned(a) + Earned(b) + Earned(c) + Earned(d)
  {
    assert [a, b, c, d][..3] == [a, b, c];
    Points3(a, b, c);
  }

  lemma Points5(a: Factor, b: Factor, c: Factor, d: Factor, e: Factor)
    ensures Points([a, b, c, d, e]) == Earned(a) + Earned(b) + Earned(c) + Earned(d) + Earned(e)
  {
    assert [a, b, c, d, e][..4] == [a, b, c, d];
    Points4(a, b, c, d);
  }

  lemma Points7(a: Factor, b: Factor, c: Factor, d: Factor, e: Factor, f: Factor, g: Factor)
    ensures Points([a, b, c, d, e, f, g]) ==
              Earned(a) + Earned(b) + Earned(c) + Earned(d) + Earned(e) + Earned(f) + Earned(g)
  {
    assert [a, b, c, d, e, f, g][..6] == [a, b, c, d, e, f];
    assert [a, b, c, d, e, f][..5] == [a, b, c, d, e];
    Points5(a, b, c, d, e);
  }

  /** Each table's share of the score lies between the sum of its negative and of its positive points. */
  lemma TableRanges(pattern: string, args: ToolArgs)
    ensures 0 <= Points(BaseFactors(pattern)) <= 70
    ensures 0 <= Points(AdvancedFeatures(pattern)) <= 102
    ensures 0 <= Points(ContextualFactors(args)) <= 33
    ensures -33 <= Points(SimplifyingFactors(pattern)) <= 0
  {
    var b := BaseFactors(pattern);
    Points5(b[0], b[1], b[2], b[3], b[4]);
    var a := AdvancedFeatures(pattern);
    Points7(a[0], a[1], a[2], a[3], a[4], a[5], a[6]);
    var c := ContextualFactors(args);
    Points4(c[0], c[1], c[2], c[3]);
    var s := SimplifyingFactors(pattern);
    Points3(s[0], s[1], s[2]);
  }

  /** `is_complex_pattern`: a non-empty pattern scoring at least 60. */
  function IsComplexPattern(args: ToolArgs): (r: bool)
    ensures r <==> args.pattern.Some? && args.pattern.value != "" && RawScore(args.pattern.value, args) >= COMPLEXITY_THRESHOLD
  {
    var pattern := if args.pattern.Some? then args.pattern.value else "";
    pattern != "" && Complexity(pattern, args) >= COMPLEXITY_THRESHOLD
  }

  /** Clamping never changes the verdict: a non-empty pattern is complex exactly when its raw score reaches 60. */
  lemma ComplexIffRawScore(args: ToolArgs)
    requires args.pattern.Some? && args.pattern.value != ""
    ensures IsComplexPattern(args) <==> RawScore(args.pattern.value, args) >= COMPLEXITY_THRESHOLD
  {
  }

  /** A missing or empty pattern is never complex. */
  lemma EmptyPatternSimple(args: ToolArgs)
    requires args.pattern.None? || args.pattern.value == ""
    ensures !IsComplexPattern(args)
  {
  }

  /** A pattern of letters and digits gains points only from its length. */
  lemma AlnumTables(pattern: string)
    requires IsAlnum(pattern)
    ensures Points(BaseFactors(pattern)) <= 25
    ensures Points(AdvancedFeatures(pattern)) == 0
    ensures Points(SimplifyingFactors(pattern)) <= -10
  {
    forall i | 0 <= i < |pattern|
      ensures pattern[i] !in "([|\\*+"
    {
      assert IsAlnumChar(pattern[i]);
    }
    CountCharAbsent(pattern, '(');
    CountCharAbsent(pattern, '[');
    CountCharAbsent(pattern, '\\');
    CountCharAbsent(pattern, '*');
    CountCharAbsent(pattern, '+');
    NotContainsAbsentChar(pattern, "(?=", 0);
    NotContainsAbsentChar(pattern, "(?!", 0);
    NotContainsAbsentChar(pattern, "(?<=", 0);
    NotContainsAbsentChar(pattern, "(?<!", 0);
    NotContainsAbsentChar(pattern, "\\b", 0);
    NotContainsAbsentChar(pattern, "\\B", 0);
    NotContainsAbsentChar(pattern, "\\d+", 0);
    NotContainsAbsentChar(pattern, "\\w+", 0);
    NotContainsAbsentChar(pattern, "\\..*\\.", 0);
    var b := BaseFactors(pattern);
    Points5(b[0], b[1], b[2], b[3], b[4]);
    var a := AdvancedFeatures(pattern);
    Points7(a[0], a[1], a[2], a[3], a[4], a[5], a[6]);
    var s := SimplifyingFactors(pattern);
    Points3(s[0], s[1], s[2]);
  }

  /** A pattern of letters and digits is never handed to the analysis agent, whatever its length and options. */
  lemma AlnumNeverComplex(args: ToolArgs)
    requires args.pattern.Some? && IsAlnum(args.pattern.value)
    ensures !IsComplexPattern(args)
  {
    var pattern := args.pattern.value;
    AlnumTables(pattern);
    TableRanges(pattern, args);
    RawScoreByTable(pattern, args);
  }

  /**
   * A pattern with a lookahead, a lookbehind and more than two opening parentheses is always handed
   * to the analysis agent, whatever the other options.
   */
  lemma LookaroundsComplex(args: ToolArgs)
    requires args.pattern.Some?
    requires Contains(args.pattern.value, "(?=") || Contains(args.pattern.value, "(?!")
    requires Contains(args.pattern.value, "(?<=") || Contains(args.pattern.value, "(?<!")
    requires CountChar(args.pattern.value, '(') > 2
    ensures IsComplexPattern(args)
  {
    var pattern := args.pattern.value;
    if '(' !in pattern {
      CountCharAbsent(pattern, '(');
    }
    var k :| 0 <= k < |pattern| && pattern[k] == '(';
    assert !IsAlnumChar(pattern[k]);
    assert pattern !in {"TODO", "FIXME", "BUG", "HACK"} by {
      assert '(' !in "TODO" && '(' !in "FIXME" && '(' !in "BUG" && '(' !in "HACK";
    }
    var b := BaseFactors(pattern);
    Points5(b[0], b[1], b[2], b[3], b[4]);
    var a := AdvancedFeatures(pattern);
    Points7(a[0], a[1], a[2], a[3], a[4], a[5], a[6]);
    var s := SimplifyingFactors(pattern);
    Points3(s[0], s[1], s[2]);
    TableRanges(pattern, args);
    RawScoreByTable(pattern, args);
  }

  // ---------------------------------------------------------------------------------------------
  // handle_file_operations

  /** `os.path.isabs` on POSIX. */
  predicate IsAbsolute(p: string)
  {
    |p| > 0 && p[0] == '/'
  }

  /** `os.path.abspath`, without the normalisation of `.` and `..`. */
  function AbsPath(workDir: string, p: string): (r: string)
    ensures IsAbsolute(p) ==> r == p
    ensures IsAbsolute(workDir) ==> IsAbsolute(r)
  {
    if IsAbsolute(p) then p else workDir + "/" + p
  }

  /** `file_path` unless it is missing, `null` or empty, then `notebook_path` (`""` when missing or `null`). */
  function TargetPath(args: ToolArgs): string
  {
    if args.filePath.Present? && args.filePath.value != "" then args.filePath.value
    else if args.notebookPath.Present? then args.notebookPath.value
    else ""
  }

  /** `any(file_path.startswith(path) for path in dangerous_paths)` */
  predicate Dangerous(p: string)
  {
    exists i :: 0 <= i < |DANGEROUS_PATHS| && DANGEROUS_PATHS[i] <= p
  }

  /** `handle_file_operations`: continue, rewrite the path, or block. */
  function HandleFileOperations(toolName: string, args: ToolArgs, exists_: bool, development: bool, workDir: string): (d: Decision)
    ensures d.Continue? || d.Modify? || d.Block?
    ensures TargetPath(args) == "" ==> d == Continue
    ensures d.Modify? <==> TargetPath(args) != "" && !IsAbsolute(TargetPath(args))
  {
    var p := TargetPath(args);
    if p == "" then Continue
    else if !IsAbsolute(p) then
      var absolute := AbsPath(workDir, p);
      if !args.notebookPath.Absent? then Modify(args.(notebookPath := Present(absolute)))
      else Modify(args.(filePath := Present(absolute)))
    else if Dangerous(p) then Block("Access to " + p + " is not allowed for " + toolName + " operation")
    else if toolName in {"Edit", "MultiEdit"} && !exists_ && !development then Block("Cannot edit non-existent file: " + p)
    else Continue
  }

  /**
   * A relative path is made absolute and written under `notebook_path` whenever that key is present,
   * even as `null` and even when the path came from `file_path`; under `file_path` otherwise.
   */
  lemma RelativePathModified(toolName: string, args: ToolArgs, exists_: bool, development: bool, workDir: string)
    requires TargetPath(args) != "" && !IsAbsolute(TargetPath(args)) && IsAbsolute(workDir)
    ensures var d := HandleFileOperations(toolName, args, exists_, development, workDir);
            && d.Modify?
            && IsAbsolute(if !args.notebookPath.Absent? then d.modifiedArgs.notebookPath.value else d.modifiedArgs.filePath.value)
            && (!args.notebookPath.Absent? ==> d.modifiedArgs == args.(notebookPath := Present(AbsPath(workDir, TargetPath(args)))))
            && (args.notebookPath.Absent? ==> d.modifiedArgs == args.(filePath := Present(AbsPath(workDir, TargetPath(args)))))
  {
  }

  /**
   * With `file_path` set to a relative path and `notebook_path` given as `null`, the absolute path is
   * written under `notebook_path` and `file_path` keeps its relative value.
   */
  lemma NullNotebookKeyTakesRewrite(toolName: string, args: ToolArgs, exists_: bool, development: bool, workDir: string)
    requires args.filePath.Present? && args.filePath.value != "" && !IsAbsolute(args.filePath.value)
    requires args.notebookPath.Null?
    ensures var d := HandleFileOperations(toolName, args, exists_, development, workDir);
            && d.Modify?
            && d.modifiedArgs.filePath == args.filePath
            && d.modifiedArgs.notebookPath == Present(AbsPath(workDir, args.filePath.value))
  {
  }

  /** An absolute path under `/etc`, `/sys`, `/proc` or `/dev` (as a string prefix) is blocked for every file tool. */
  lemma DangerousBlocked(toolName: string, args: ToolArgs, exists_: bool, development: bool, workDir: string, root: nat)
    requires root < |DANGEROUS_PATHS| && DANGEROUS_PATHS[root] <= TargetPath(args)
    ensures HandleFileOperations(toolName, args, exists_, development, workDir).Block?
  {
    assert IsAbsolute(TargetPath(args));
  }

  /** A file operation is blocked exactly for a system path, or an edit of a missing file outside a development context. */
  lemma FileBlockIff(toolName: string, args: ToolArgs, exists_: bool, development: bool, workDir: string)
    ensures HandleFileOperations(toolName, args, exists_, development, workDir).Block? <==>
              IsAbsolute(TargetPath(args)) &&
              (Dangerous(TargetPath(args)) || (toolName in {"Edit", "MultiEdit"} && !exists_ && !development))
  {
  }

  /** Read, Write and NotebookEdit are never blocked outside the system paths. */
  lemma OnlySystemPathsBlockReads(toolName: string, args: ToolArgs, exists_: bool, development: bool, workDir: string)
    requires toolName in {"Read", "Write", "NotebookEdit"} && !Dangerous(TargetPath(args))
    ensures !HandleFileOperations(toolName, args, exists_, development, workDir).Block?
  {
  }

  // ---------------------------------------------------------------------------------------------
  // analyze_and_delegate_with_context and main

  /** `'test' in cwd.lower() or 'debug' in last_user_message.lower()` */
  predicate DevelopmentContext(cwd: string, lastUserMessage: string)
  {
    Contains(Lower(cwd), "test") || Contains(Lower(lastUserMessage), "debug")
  }

  /** The decision of `analyze_and_delegate_with_context`. */
  function Analyze(toolName: string, args: ToolArgs, cwd: string, lastUserMessage: string, exists_: bool, workDir: string): (d: Decision)
    ensures (d.Block? || d.Modify?) ==> toolName in FILE_TOOLS
    ensures d.Delegate? ==> toolName in SEARCH_TOOLS && d.toolArgs == args
    ensures toolName !in FILE_TOOLS && toolName !in SEARCH_TOOLS ==> d == Continue
  {
    if toolName in FILE_TOOLS then HandleFileOperations(toolName, args, exists_, DevelopmentContext(cwd, lastUserMessage), workDir)
    else if toolName in SEARCH_TOOLS && IsComplexPattern(args) then Delegate(toolName, args)
    else Continue
  }

  /**
   * Only file tools are ever blocked or rewritten; a search tool is delegated exactly when its pattern
   * is complex; every other tool continues unchanged.
   */
  lemma AnalyzeRouting(toolName: string, args: ToolArgs, cwd: string, lastUserMessage: string, exists_: bool, workDir: string)
    ensures var d := Analyze(toolName, args, cwd, lastUserMessage, exists_, workDir);
            && ((d.Block? || d.Modify?) ==> toolName in FILE_TOOLS)
            && (d.Delegate? <==> toolName in SEARCH_TOOLS && IsComplexPattern(args))
            && (d.Delegate? ==> d.toolName == toolName && d.toolArgs == args)
            && (toolName !in FILE_TOOLS && toolName !in SEARCH_TOOLS ==> d == Continue)
  {
  }

  /** An edit of a missing file at an ordinary absolute path is blocked exactly outside a development context. */
  lemma DevelopmentAllowsMissingEdits(args: ToolArgs, cwd: string, lastUserMessage: string, workDir: string)
    requires IsAbsolute(TargetPath(args)) && !Dangerous(TargetPath(args))
    ensures Analyze("Edit", args, cwd, lastUserMessage, false, workDir).Block? <==> !DevelopmentContext(cwd, lastUserMessage)
  {
  }

  /** One hook call: the parsed input (`None` when it is not JSON), returning the decision and the exit code. */
  method RunPreToolUse(input: Option<(string, ToolArgs)>, cwd: string, lastUserMessage: string, exists_: bool, workDir: string)
    returns (decision: Decision, code: int)
    ensures input.None? ==> decision == Continue && code == 1
    ensures input.Some? ==> code == 0 && decision == Analyze(input.value.0, input.value.1, cwd, lastUserMessage, exists_, workDir)
  {
    if input.None? {
      return Continue, 1;
    }
    var (toolName, args) := input.value;
    code := 0;
    if toolName in FILE_TOOLS {
      decision := HandleFileOperations(toolName, args, exists_, DevelopmentContext(cwd, lastUserMessage), workDir);
      return;
    }
    if toolName in SEARCH_TOOLS {
      var pattern := if args.pattern.Some? then args.pattern.value else "";
      if pattern != "" {
        var score := CalculatePatternComplexity(pattern, args);
        if score >= COMPLEXITY_THRESHOLD {
          return Delegate(toolName, args), 0;
        }
      }
    }
    decision := Continue;
  }
}
