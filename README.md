# Workflow bookkeeping of the delegation hooks, in Dafny

This project models the bookkeeping core of a multi-agent orchestration setup. It is built from
hooks and helper scripts around a coding assistant. The model covers these parts:

- **Retry budget manager** (`RetryManager`): the per-phase store of retry budgets. It covers
  initialisation with defaults, recording a failure, the can-retry decision, the exponential,
  linear and constant backoff formulas, reset, and age-based cleanup.
- **Execution log writer** (`LogWriter`): the append-only JSONL event log of one workflow.
  It covers entry construction, append, size-triggered rotation into archives, the filtered and
  limited read, statistics, and retention cleanup.
- **Workflow state machine** (`WorkflowState`): `workflow.json`, with phases `phase_0 ..
  phase_{n-1}`, a `current_phase` pointer, a workflow status and auto-advance on completion. It
  also covers the `WORKFLOW_STATUS.md` rendering.
- **Task-graph gatekeepers**:
  - `TaskGraphCompliance`: the pre-`Task` check. It covers phase-marker extraction, phase
    lookup, the wave-order check and the exit code.
  - `TaskGraphDepth`: the post-`Task` check that every atomic phase has depth at least 3.
  - `TaskGraph`: the graph datatype the two gatekeepers share.
- **Stop hook bookkeeping** (`StopHook`): duration formatting, the ten-entry duration history,
  and the one-shot workflow-continuation file.
- **Delegation gate** (`RequireDelegation`): the allow/block decision, the regex fallback for
  malformed input, session registration, and the consume-once flag.
- **Context-aware pre-tool-use hook** (`PreToolUseHook`): the clamped pattern-complexity score,
  the routing of tool calls, and the file-path decision.

`Basics` holds `Option`, `Result` and `AnyOf`, which picks some element of a set the way a
Python set iteration would. `Strings` holds the Python string operations the hooks use
(`in`, `count`, `lower`, `isalnum`, `split`, `join`, `strip`, `str(int)`), with round-trip lemmas.

Conventions used throughout:

- Time is an integer or real parameter.
- A file's presence and contents are fields of the class that owns it, or parameters.
- JSON `null` is handled member by member, the way the code reads it:
  - Where a `null` member behaves differently from a missing one, the member is a `Field`:
    `Absent`, `Null` or `Present(v)`. Examples: a task graph's `execution_plan`, `current_wave`,
    `phase_id` and `depth`, and the `notebook_path` and `file_path` tool arguments.
  - Where the code cannot tell the two apart (`d.get(k)` tested for truthiness), the member is an
    `Option` and `None` stands for both.
  - A member whose non-object value makes the code raise gets its own constructor. Examples: a
    task's `parameters` (`NotObject`), and the stop hook's history file and `durations` list.
- An exception the code does not catch ends the hook with exit 1 (exit 2 for the delegation
  gate). In the model it is a `None`, an `Err` or a `false` flag, and the exit code follows it.
- Each state-changing operation is a method.
  - Its `ensures` ties the new state to a pure function of the old state.
  - The properties the code promises are lemmas about those functions.

## Behaviour worth knowing

- Rotation deletes the live log file after copying it into the archive.
  (`src/hooks/lib/log_writer.py:165-170`)
- The compliance check lets a `Task` call through when the graph file cannot be read or is not
  JSON, but a graph file that is not valid UTF-8 raises uncaught and blocks it.
  (`hooks/PreToolUse/validate_task_graph_compliance.py:83-87`)
- Retention cleanup deletes every matching log file older than the window, the live one
  included. (`src/hooks/lib/log_writer.py:178-183`)
- Per-phase statistics keep the status and agent of the first event of that phase.
  (`src/hooks/lib/log_writer.py:259-265`)
- Activating a phase while another is current only sets that phase's status, so two phases can
  be `active` at once. (`scripts/workflow_state.py:135-139`)
  - The single-active invariant holds only along the forward sequence (create, activate
    `phase_0`, complete the current phase repeatedly).
  - `WorkflowState.ForwardSingleActive` proves it there.
- Marking a phase `failed` sets the workflow status and leaves `current_phase` unchanged.
  (`scripts/workflow_state.py:140-143`)
- A continuation file that is not valid JSON is deleted and does not block the stop.
  (`hooks/stop/python_stop_hook.py:183-190`)
- Once a phase has failed within its budget, `can_retry` compares a naive and an aware
  `datetime` and raises; cleanup does the same for any entry that has failed. See "Findings".
  (`hooks/lib/retry_manager.py:253-257`, `hooks/lib/retry_manager.py:355-359`)
- A `null` `execution_plan`, or an atomic phase with a `null` `depth`, makes the depth check
  raise and exit 1. (`hooks/PostToolUse/validate_task_graph_depth.py:54-57`)
- A `notebook_path` argument given as `null` still receives the rewritten absolute path.
  (`scripts/pretooluse_hook.py:117-128`)
- If the duration history cannot be read as an object with an iterable `durations`, the stop
  hook ends with exit 1. The formatted duration is already written by then; the start file
  stays; the continuation file is not consumed. (`hooks/stop/python_stop_hook.py:85-88`)

## Model

| member | source | states |
|---|---|---|
| RetryManager.DelayBounds | hooks/lib/retry_manager.py:282-314 | exponential and linear backoff never exceed the maximum; constant backoff is the base, uncapped; an unknown strategy behaves as exponential |
| RetryManager.Delay | hooks/lib/retry_manager.py:292-314 | exponential and linear delays lie between min(base, maximum) and the maximum for a non-negative base; constant is the base itself |
| RetryManager.DelayMonotone | hooks/lib/retry_manager.py:292-314 | for a non-negative base, the delay never decreases as the attempt count grows, under every strategy |
| RetryManager.ExponentialDoubles | hooks/lib/retry_manager.py:297-300 | below the cap, each further attempt doubles the exponential delay |
| RetryManager.LinearAddsBase | hooks/lib/retry_manager.py:302-305 | below the cap, each further attempt adds one base to the linear delay |
| RetryManager.Pow2Monotone | hooks/lib/retry_manager.py:297-299 | the factor 2^(n-1) of the exponential strategy grows with n |
| RetryManager.NewRetryState | hooks/lib/retry_manager.py:128-141 | a new entry is attempt 1 with empty history, not exhausted and never failed; every falsy argument is replaced by its default (5, exponential, 1.0, 16.0) |
| RetryManager.AfterFailure | hooks/lib/retry_manager.py:181-216 | one error event is appended, numbered with the pre-increment count; last failure is set; first failure is set only once; the count goes up by one; past the maximum the budget is exhausted with no retry time, otherwise the next retry is now plus the backoff of the new count; no other field changes |
| RetryManager.CanRetryDecision | hooks/lib/retry_manager.py:236-262 | the intended decision: an unknown phase may retry at once; refusal without a wait happens exactly when the budget is exhausted or the count exceeds the maximum; within budget, retry is allowed exactly when no retry time is recorded or it has passed, and a refusal with a wait gives a positive wait that ends at the recorded retry time |
| RetryManager.CanRetryAsWritten | hooks/lib/retry_manager.py:253-257 | as written, the decision raises exactly when the entry is within budget and has a retry time; otherwise it is the intended decision |
| RetryManager.CanRetryRaisesAfterFailure | hooks/lib/retry_manager.py:208-257 | as written, every failure within budget records a retry time, so the next `can_retry` for that phase raises |
| RetryManager.CanRetryCounterexample | hooks/lib/retry_manager.py:128-257 | a fresh entry with one failure at time 0: the intended answer is a 2-second wait, the written code raises |
| RetryManager.FailurePreservesWellFormed | hooks/lib/retry_manager.py:181-216 | a failure keeps an entry well-formed: the history holds one event per failure, the budget is exhausted only past the maximum, and an exhausted entry has no retry time |
| RetryManager.FailuresFromInit | hooks/lib/retry_manager.py:128-216 | after k failures from a fresh entry the count is k+1, the history holds k events numbered 1..k, the budget is exhausted iff k ≥ 1 and k+1 exceeds the maximum, and the first/last failure times are those of the first/last failure |
| RetryManager.WaitAfterFailure | hooks/lib/retry_manager.py:208-262 | for the intended decision: after a failure within budget with a positive backoff, the phase must wait exactly the backoff, and it may retry once that time has passed |
| RetryManager.ExhaustedIsTerminal | hooks/lib/retry_manager.py:245-250 | an exhausted budget stays exhausted and keeps refusing retries |
| RetryManager.ResetThenCanRetry | hooks/lib/retry_manager.py:316-327 | reset is idempotent, leaves every other phase's entry alone, and afterwards the phase may retry at once |
| RetryManager.NeverFailedSurvivesCleanup | hooks/lib/retry_manager.py:354-363 | an entry that never failed is kept by cleanup |
| RetryManager.CleanupAsWritten | hooks/lib/retry_manager.py:355-359 | as written, cleanup raises exactly when some entry has a last failure time, and otherwise removes nothing |
| RetryManager.CleanupNeverRemoves | hooks/lib/retry_manager.py:342-366 | as written, whenever some entry is stale cleanup raises, so it never removes an entry |
| RetryManager.RetryStore.constructor | hooks/lib/retry_manager.py:39-54 | the store starts with the given entries |
| RetryManager.RetryStore.InitRetry | hooks/lib/retry_manager.py:103-146 | the phase's entry becomes (or is overwritten by) a fresh entry; every other entry is unchanged |
| RetryManager.RetryStore.RecordFailure | hooks/lib/retry_manager.py:148-222 | an unknown phase is an error and changes nothing; otherwise only that phase's entry changes, to its state after the failure |
| RetryManager.RetryStore.CanRetry | hooks/lib/retry_manager.py:224-262 | the intended decision for the phase's current entry; (true, 0) for an unknown phase; in a well-formed store, a refusal without a wait means the phase has exceeded its maximum |
| RetryManager.RetryStore.GetBackoffDelay | hooks/lib/retry_manager.py:264-280 | 0 for an unknown phase, otherwise the backoff of its entry; the store is not modified |
| RetryManager.RetryStore.GetRetryState | hooks/lib/retry_manager.py:329-340 | the phase's entry exactly when it has one |
| RetryManager.RetryStore.ResetBudget | hooks/lib/retry_manager.py:316-327 | only that phase's entry is removed |
| RetryManager.RetryStore.CleanupOldRetries | hooks/lib/retry_manager.py:342-366 | the intended cleanup: exactly the entries whose last failure is before now minus the age are removed, and the store stays well-formed |
| LogWriter.SizeAppend | src/hooks/lib/log_writer.py:123-142 | appending a line grows the file by that line's size |
| LogWriter.StandardEntryRequiredFields | src/hooks/lib/log_writer.py:93-99 | every entry carries timestamp, event type, the writer's workflow id and status |
| LogWriter.StandardEntryOptionalFields | src/hooks/lib/log_writer.py:101-111 | phase id, agent, error and context appear only when truthy; the duration appears whenever it is given, 0 included |
| LogWriter.StandardEntryKeys | src/hooks/lib/log_writer.py:93-111 | before the extra fields, an entry has only the standard keys |
| LogWriter.StandardEntry | src/hooks/lib/log_writer.py:93-111 | an entry always has timestamp, event type, workflow id and status, and no key outside the standard ones |
| LogWriter.BuildEntry | src/hooks/lib/log_writer.py:93-114 | extra keyword fields are merged last and override standard keys; every other key is the standard one |
| LogWriter.MatchingMatches | src/hooks/lib/log_writer.py:214-223 | every event read satisfies every truthy filter |
| LogWriter.MatchingInOrder | src/hooks/lib/log_writer.py:208-232 | the events read are a subsequence of the parsable lines, in file order |
| LogWriter.MatchingComplete | src/hooks/lib/log_writer.py:208-232 | every parsable line that satisfies the filters is read, as often as it occurs |
| LogWriter.NoFiltersReadsAll | src/hooks/lib/log_writer.py:208-232 | without filters or limit every parsable line is read and unparsable ones are skipped |
| LogWriter.MatchingPrefix | src/hooks/lib/log_writer.py:208-226 | reading a prefix of the file yields a prefix of the result |
| LogWriter.LimitIsPrefix | src/hooks/lib/log_writer.py:224-226 | with a limit the result is a prefix of the unlimited result, of length min(matches, limit) |
| LogWriter.ReadResult | src/hooks/lib/log_writer.py:208-226 | the result is a prefix of the matching events: all of them when the limit is missing or 0, otherwise min(matches, limit) of them (a negative limit stops after one) |
| LogWriter.AppendThenRead | src/hooks/lib/log_writer.py:208-232 | after an append, reading everything yields the old events followed by the new entry |
| LogWriter.MapSumRemove | src/hooks/lib/log_writer.py:252-254 | a counter map's total is one key's count plus the total of the rest |
| LogWriter.CountOneMore | src/hooks/lib/log_writer.py:252-254 | incrementing one counter raises the total by one |
| LogWriter.TallyCounters | src/hooks/lib/log_writer.py:241-271 | total events is the number of events; errors count status "failed"; retries count event type "retry" |
| LogWriter.StatsOf | src/hooks/lib/log_writer.py:241-271 | the total is the number of events, errors count status `failed` and retries count event type `retry` |
| LogWriter.TallyTypeSum | src/hooks/lib/log_writer.py:250-254 | the event-type counts sum to the number of events |
| LogWriter.TallyEventTypes | src/hooks/lib/log_writer.py:250-254 | a type has a count exactly when some event has it, and the count is the number of events of that type |
| LogWriter.TallyPhases | src/hooks/lib/log_writer.py:256-265 | each phase's stats count its events and keep the status and agent of its first event |
| LogWriter.Writer.constructor | src/hooks/lib/log_writer.py:37-63 | the size threshold is max_size_mb·1024·1024 |
| LogWriter.Writer.WriteEvent | src/hooks/lib/log_writer.py:65-121 | returns the built entry; the live log gains exactly that entry at its end; if its size then reaches the threshold the whole log goes to a new archive and the live file is removed |
| LogWriter.Writer.AppendEntry | src/hooks/lib/log_writer.py:123-142 | the entry is appended after the existing lines, which are unchanged |
| LogWriter.Writer.CheckRotation | src/hooks/lib/log_writer.py:144-152 | rotation fires exactly when the live file exists and its size reaches the threshold |
| LogWriter.Writer.RotateLog | src/hooks/lib/log_writer.py:154-170 | the archive receives the full live content and the live file is gone, so a read yields nothing |
| LogWriter.Writer.ReadEvents | src/hooks/lib/log_writer.py:186-232 | the loop with its early break returns the filtered, limited read |
| LogWriter.CountEvents | src/hooks/lib/log_writer.py:243-273 | the counting loop returns the statistics `StatsOf` defines for the events it visits |
| LogWriter.Writer.GetWorkflowStats | src/hooks/lib/log_writer.py:234-273 | the statistics are those of every event the log holds, read without filters |
| LogWriter.Writer.CleanupOldLogs | src/hooks/lib/log_writer.py:174-184 | exactly the archives and the live file last modified before the retention cutoff are deleted |
| WorkflowState.PhaseIdInjective | scripts/workflow_state.py:60 | phase ids of different positions differ |
| WorkflowState.NewWorkflowShape | scripts/workflow_state.py:53-69 | a new workflow is pending with no current phase; phase i has the given title and agent, is pending with no deliverables or context, and is the phase the lookup finds for `phase_i` |
| WorkflowState.FirstIndex | scripts/workflow_state.py:104-113 | the lookup finds the first phase with the id, and finds none exactly when no phase has it |
| WorkflowState.DigitsHaveNoUnderscore | scripts/workflow_state.py:121 | a digit string has no underscore |
| WorkflowState.PhaseIdNumber | scripts/workflow_state.py:121 | the number after the first underscore of `phase_i` is i |
| WorkflowState.Update | scripts/workflow_state.py:84-143 | a written update keeps the workflow's id and task and every phase's id and title, and the id it names belongs to some phase |
| WorkflowState.Advance | scripts/workflow_state.py:119-143 | the auto-advance changes statuses and the current phase only: the workflow's id and task and every phase's id and title are kept |
| WorkflowState.UpdateFails | scripts/workflow_state.py:98-121 | the update writes nothing exactly when there is no workflow, no phase has the id, or a completed id has no number |
| WorkflowState.UpdatePhases | scripts/workflow_state.py:104-127 | only the first matching phase changes (deliverables and context only when supplied), except that completing phase i activates phase i+1 |
| WorkflowState.CompleteAdvances | scripts/workflow_state.py:120-134 | completing phase i activates phase i+1 and makes it current with the workflow active; completing the last phase clears the current phase and completes the workflow |
| WorkflowState.UpdateWorkflowFields | scripts/workflow_state.py:135-143 | activating with no current phase makes it current and the workflow active; with a current phase nothing else changes; failing a phase fails the workflow and keeps the current phase |
| WorkflowState.ActivateFirst | scripts/workflow_state.py:135-139 | activating `phase_0` of a new workflow starts the forward sequence |
| WorkflowState.ForwardFinds | scripts/workflow_state.py:104-113 | along the forward sequence, `phase_k` is found at position k |
| WorkflowState.CompleteCurrentPhase | scripts/workflow_state.py:104-134 | completing the current phase k leaves phases up to k completed, k+1 active and the rest pending |
| WorkflowState.CompleteCurrent | scripts/workflow_state.py:120-134 | completing the current phase keeps the forward sequence |
| WorkflowState.ForwardSingleActive | scripts/workflow_state.py:120-139 | along the forward sequence at most one phase is active, and a phase is active exactly when it is the current phase |
| WorkflowState.PhaseBlocksContain | scripts/workflow_state.py:203-224 | every line of a phase's block is among the rendered phase lines |
| WorkflowState.PhaseBlocksSucceed | scripts/workflow_state.py:215 | rendering the phases succeeds exactly when every phase id has a number after its first `_` |
| WorkflowState.GenerateMarkdown | scripts/workflow_state.py:173-226 | the report is produced exactly when every phase id has a number after its first `_` |
| WorkflowState.LineInJoin | scripts/workflow_state.py:226 | every line occurs in the joined text |
| WorkflowState.MarkdownStartsWithTask | scripts/workflow_state.py:182-187 | the rendering starts with `# Workflow: <task>` |
| WorkflowState.BlockInMarkdown | scripts/workflow_state.py:203-226 | every line of every phase block occurs in the rendering |
| WorkflowState.HeadingInMarkdown | scripts/workflow_state.py:203-226 | each phase's heading line occurs in the report with a newline on both sides |
| WorkflowState.MarkdownShowsPhase | scripts/workflow_state.py:203-216 | the report holds, as a whole line, `- [x] Phase k: title ✓` for a completed phase, `- [ ] Phase k: title ◀ current` for the unfinished current phase, and `- [ ] Phase k: title` for the others |
| WorkflowState.MarkdownShowsAgent | scripts/workflow_state.py:218-223 | every phase has an Agent line; a non-empty deliverables list has a Deliverables line |
| WorkflowState.NoDeliverablesNoLine | scripts/workflow_state.py:218-220 | a phase without deliverables has no Deliverables line |
| WorkflowState.NewWorkflowMarkdown | scripts/workflow_state.py:173-226 | a new workflow renders its task and every phase unchecked with its title and agent |
| WorkflowState.WorkflowStore.constructor | scripts/workflow_state.py:155-170 | the store starts with the given state and status files |
| WorkflowState.WorkflowStore.GetWorkflowState | scripts/workflow_state.py:155-170 | returns what reading the state file yields |
| WorkflowState.WorkflowStore.CreateWorkflow | scripts/workflow_state.py:25-81 | the id starts with `wf_`; the state file holds the new workflow and the status file its rendering |
| WorkflowState.WorkflowStore.UpdatePhaseStatus | scripts/workflow_state.py:84-152 | the find loop and auto-advance yield the specified update; a failed update writes nothing; a successful one writes the workflow and its rendering |
| TaskGraph.AllPhasesContains | hooks/PostToolUse/validate_task_graph_depth.py:55-56 | every phase of every wave is visited; no waves give no phases |
| TaskGraph.AllPhasesFrom | hooks/PostToolUse/validate_task_graph_depth.py:55-56 | every visited phase belongs to some wave |
| TaskGraph.AllPhasesAppend | hooks/PostToolUse/validate_task_graph_depth.py:55-56 | waves are visited in order, each wave's phases in order |
| TaskGraphDepth.OffendersExact | hooks/PostToolUse/validate_task_graph_depth.py:57-60 | the reported violations are exactly the atomic phases of depth below 3, with id as printed (`unknown` for a missing id, `None` for a `null` one) and depth 0 by default |
| TaskGraphDepth.NoOffenders | hooks/PostToolUse/validate_task_graph_depth.py:57-63 | there is no violation exactly when every atomic phase with a non-`null` depth has depth at least 3 |
| TaskGraphDepth.OffendersAppend | hooks/PostToolUse/validate_task_graph_depth.py:55-60 | violations are reported in wave-then-phase order |
| TaskGraphDepth.ScanPasses | hooks/PostToolUse/validate_task_graph_depth.py:55-63 | the scan neither raises nor reports anything exactly when every atomic phase has a non-`null` depth of at least 3 |
| TaskGraphDepth.CollectViolations | hooks/PostToolUse/validate_task_graph_depth.py:52-60 | the nested loop raises exactly when some atomic phase has a `null` depth, and otherwise collects every violation in order |
| TaskGraphDepth.CheckDepth | hooks/PostToolUse/validate_task_graph_depth.py:33-92 | the exit code of the decision; violations are reported exactly when the plan is readable, nothing raises and some atomic phase is too shallow, and they are then the full list in order |
| TaskGraphDepth.DepthExitMeaning | hooks/PostToolUse/validate_task_graph_depth.py:38-92 | exit 0 or 1; 0 exactly when there is no graph file, or the graph is readable, its plan (the document itself without `execution_plan`, the member's object when given) is not `null`, and every atomic phase of every wave of the plan has a non-`null` depth of at least 3 (missing counts as 0) |
| TaskGraphDepth.DepthBoundary | hooks/PostToolUse/validate_task_graph_depth.py:54-57 | a given depth of 2 is reported and one of 3 is not, and a `null` plan fails even with no waves |
| TaskGraphCompliance.DigitRun | hooks/PreToolUse/validate_task_graph_compliance.py:79 | the greedy `\d+` run is all digits and stops before a non-digit |
| TaskGraphCompliance.ExtractNone | hooks/PreToolUse/validate_task_graph_compliance.py:79-80 | the search finds nothing exactly when no position of the prompt starts a match |
| TaskGraphCompliance.ExtractLeftmost | hooks/PreToolUse/validate_task_graph_compliance.py:79-80 | a found id is the match at the leftmost position that starts one |
| TaskGraphCompliance.MatchShape | hooks/PreToolUse/validate_task_graph_compliance.py:79-80 | a match is a `phase_...` id that follows `Phase ID: ` in the prompt |
| TaskGraphCompliance.DigitRunOf | hooks/PreToolUse/validate_task_graph_compliance.py:79 | the run covers exactly the digits before a non-digit |
| TaskGraphCompliance.MatchDigits | hooks/PreToolUse/validate_task_graph_compliance.py:79-80 | a marker with two digit groups yields `phase_<a>_<b>` |
| TaskGraphCompliance.ExtractMarker | hooks/PreToolUse/validate_task_graph_compliance.py:79-80 | a prompt starting with the marker for numbers a and b yields `phase_a_b` |
| TaskGraphCompliance.ExtractNeedsMarker | hooks/PreToolUse/validate_task_graph_compliance.py:79-80 | no `Phase ID: phase_` in the prompt means no phase id |
| TaskGraphCompliance.ExtractPhaseId | hooks/PreToolUse/validate_task_graph_compliance.py:79-80 | a found id starts with `phase_` and follows `Phase ID: ` in the prompt |
| TaskGraphCompliance.FirstWave | hooks/PreToolUse/validate_task_graph_compliance.py:109-118 | the phase's wave is the `wave_id` of the first wave containing it; none exactly when no wave contains it |
| TaskGraphCompliance.FindPhaseWave | hooks/PreToolUse/validate_task_graph_compliance.py:109-118 | the nested loop with breaks finds the phase and its first wave |
| TaskGraphCompliance.PromptOf | hooks/PreToolUse/validate_task_graph_compliance.py:68 | a non-empty `prompt` is used; otherwise the prompt of an object `parameters`; it raises exactly when `prompt` is missing or empty and `parameters` is not an object; a non-empty result comes from one of the two |
| TaskGraphCompliance.CheckCompliance | hooks/PreToolUse/validate_task_graph_compliance.py:21-149 | the exit code of the decision chain |
| TaskGraphCompliance.FirstWaveReached | hooks/PreToolUse/validate_task_graph_compliance.py:120-146 | the phase passes exactly when some wave contains it and its first wave's id is missing, or at most the current wave (0 when missing), the current wave not being `null` |
| TaskGraphCompliance.ComplianceExitCodes | hooks/PreToolUse/validate_task_graph_compliance.py:21-149 | the exit code is 0 or 1 |
| TaskGraphCompliance.ComplianceExit | hooks/PreToolUse/validate_task_graph_compliance.py:21-149 | exit 0 or 1; a readable call (non-empty, under 1 MiB, a JSON object) that is not `Task`, or that finds no graph file, gives 0; a blocked call with a readable graph and a prompt has no marked phase that reaches its wave |
| TaskGraphCompliance.ComplianceAllows | hooks/PreToolUse/validate_task_graph_compliance.py:21-149 | exit 0 exactly when the input is non-empty, under 1 MiB and a JSON object, and the tool is not `Task` (an argument overrides the JSON name), or there is no graph file, or the prompt lookup does not raise and the prompt is empty, or the subagent is the orchestrator, or the graph file cannot be read or parsed (a file that is not UTF-8 raises and blocks instead), or the prompt's marker names a phase whose first wave is missing or reached by a non-`null` current wave (default 0) |
| TaskGraphCompliance.MissingMarkerBlocks | hooks/PreToolUse/validate_task_graph_compliance.py:83-106 | without a marker a readable graph blocks, while an unreadable one allows |
| TaskGraphCompliance.NonObjectParametersFail | hooks/PreToolUse/validate_task_graph_compliance.py:68 | a `Task` call under a graph whose `prompt` is missing or empty and whose `parameters` is `null` or not an object exits 1 |
| TaskGraphCompliance.NullCurrentWaveFails | hooks/PreToolUse/validate_task_graph_compliance.py:135-138 | a marked phase in a wave with an id exits 1 when `current_wave` is `null` |
| TaskGraphCompliance.NonUtf8GraphFails | hooks/PreToolUse/validate_task_graph_compliance.py:83-87 | a graph file that is not UTF-8 makes a `Task` call with a non-empty prompt, not for the orchestrator, exit 1, while a graph that fails to parse or to be read lets it through |
| StopHook.Truncate | hooks/stop/python_stop_hook.py:50 | for a non-negative duration the whole seconds are the floor |
| StopHook.DigitsHaveNoSpace | hooks/stop/python_stop_hook.py:50-64 | a number's digits contain no space |
| StopHook.PartOf | hooks/stop/python_stop_hook.py:50-64 | a `<n><unit>` part reads back as n seconds, minutes or hours |
| StopHook.OnePart | hooks/stop/python_stop_hook.py:50-64 | a one-part text reads back as its value |
| StopHook.TwoParts | hooks/stop/python_stop_hook.py:50-64 | a two-part text reads back as the sum of its parts |
| StopHook.RoundTripMinutes | hooks/stop/python_stop_hook.py:53-58 | between 60 and 3599 s the text (`Nm` or `Nm Ss`) reads back as exactly s |
| StopHook.RoundTripHours | hooks/stop/python_stop_hook.py:59-64 | from 3600 s on the text (`Nh` or `Nh Mm`) reads back as s without its leftover seconds |
| StopHook.FormatSecondsRoundTrip | hooks/stop/python_stop_hook.py:41-64 | a formatted duration reads back as s below an hour and as s rounded down to the minute from an hour on |
| StopHook.FormatDuration | hooks/stop/python_stop_hook.py:41-64 | a non-negative duration's text reads back as its whole seconds below an hour, and as them cut to whole minutes from an hour on |
| StopHook.Recent | hooks/stop/python_stop_hook.py:93-94 | the last min(n, 10) durations, in order |
| StopHook.NumbersAsItems | hooks/stop/python_stop_hook.py:86-100 | the history written as one number per duration, in order, reads back as the same durations |
| StopHook.Loaded | hooks/stop/python_stop_hook.py:83-90 | reading the history raises exactly when the file holds a non-object or an object whose `durations` is not iterable; a list yields its numeric entries in order |
| StopHook.WrittenHistoryLoads | hooks/stop/python_stop_hook.py:85-100 | a history the hook wrote reads back as the same durations |
| StopHook.CollectNumbers | hooks/stop/python_stop_hook.py:88 | the loop keeps exactly the numeric entries, in order, as reals |
| StopHook.RecentWindow | hooks/stop/python_stop_hook.py:82-94 | trimming before or after appending gives the same history; it has at most 10 entries and ends with the new duration |
| StopHook.StateDir.constructor | hooks/stop/python_stop_hook.py:117-120 | the state directory starts with the given files |
| StopHook.StateDir.AppendDurationToHistory | hooks/stop/python_stop_hook.py:67-104 | if reading the old history raises, it reports that and changes nothing; otherwise the history becomes the last 10 of the old numeric entries plus the new one, a missing or corrupt file counting as empty; other files are unchanged |
| StopHook.StateDir.CalculateAndRecordTurnDuration | hooks/stop/python_stop_hook.py:107-149 | for a non-negative duration the formatted text is written; then, unless the history read raises, the duration is appended to the history and the start file removed; a raise leaves history and start file as they were; a negative duration or a missing or unreadable start changes nothing |
| StopHook.StateDir.CheckWorkflowContinuation | hooks/stop/python_stop_hook.py:152-190 | blocks exactly when a valid continuation file existed; afterwards the file is gone |
| StopHook.StateDir.RunStopHook | hooks/stop/python_stop_hook.py:283-291 | if recording the duration raises, exit 1 without blocking and with the continuation file kept; otherwise exit 0, blocking exactly when a valid continuation file existed, which is then gone |
| RequireDelegation.QuoteFree | hooks/PreToolUse/require_delegation.py:134 | `[^"]*` stops at the first quote |
| RequireDelegation.ExtractFieldSound | hooks/PreToolUse/require_delegation.py:134-139 | a recovered value has no quote and the quoted key occurs in the text |
| RequireDelegation.ExtractFieldOf | hooks/PreToolUse/require_delegation.py:134-139 | `"<key>": "<value>"` yields the value |
| RequireDelegation.FieldAtOf | hooks/PreToolUse/require_delegation.py:134 | the pattern matched at the key yields the value |
| RequireDelegation.QuoteFreeOf | hooks/PreToolUse/require_delegation.py:134 | a quote-free value followed by a quote is captured whole |
| RequireDelegation.CallOf | hooks/PreToolUse/require_delegation.py:115-139 | the call cannot be read exactly when stdin fails or is valid JSON that is not an object; empty stdin gives an empty name and session; an object's name is taken as given |
| RequireDelegation.LinesJoin | hooks/PreToolUse/require_delegation.py:163-164 | appending one id per line gives the ids joined by newlines plus a final newline |
| RequireDelegation.StripLines | hooks/PreToolUse/require_delegation.py:158 | stripping such a file removes only the final newline |
| RequireDelegation.SessionsOfLines | hooks/PreToolUse/require_delegation.py:200 | a file of clean ids reads back as exactly the set of those ids |
| RequireDelegation.Register | hooks/PreToolUse/require_delegation.py:155-167 | the file is written; a listed session leaves it unchanged; otherwise the old contents are kept and the session follows on its own line |
| RequireDelegation.RegisterRemembers | hooks/PreToolUse/require_delegation.py:155-167 | a known session leaves the file unchanged, a new one is appended on its own line, and either way the session is then registered |
| RequireDelegation.Verdict | hooks/PreToolUse/require_delegation.py:144-222 | exit 0 or 2; 2 exactly when the hook crashed, or the state decides with neither flag set and the session empty or not registered |
| RequireDelegation.VerdictMeaning | hooks/PreToolUse/require_delegation.py:91-222 | exit 0 or 2; 0 exactly when the hook is switched off, or the input is usable and the tool is allowlisted (ignoring case) or delegation-like, or the once flag or active flag is set, or the session is registered |
| RequireDelegation.OnceAllowsOne | hooks/PreToolUse/require_delegation.py:184-209 | the once flag lets an otherwise blocked call through, and without it the same call is blocked |
| RequireDelegation.RegisteredSessionAllowed | hooks/PreToolUse/require_delegation.py:152-203 | once registered, every later call from that session whose input can be read is allowed, whichever route decides it |
| RequireDelegation.IsAllowlisted | hooks/PreToolUse/require_delegation.py:145-149 | the loop over the allowlist finds a case-insensitive match exactly when there is one |
| RequireDelegation.DelegationState.constructor | hooks/PreToolUse/require_delegation.py:95-99 | the flags and sessions file start as given |
| RequireDelegation.DelegationState.RegisterSession | hooks/PreToolUse/require_delegation.py:152-174 | the session is appended unless already present, and the active flag is set |
| RequireDelegation.DelegationState.RunHook | hooks/PreToolUse/require_delegation.py:91-222 | the exit code is the decision; only an exact-case delegation tool with a session id registers it and sets the active flag; the once flag is removed when it decides; nothing else changes |
| PreToolUseHook.Complexity | scripts/pretooluse_hook.py:230 | the score lies in [0, 100] and equals the raw score when that does |
| PreToolUseHook.SumPoints | scripts/pretooluse_hook.py:214-222 | the loop adds the points of every holding factor |
| PreToolUseHook.CalculatePatternComplexity | scripts/pretooluse_hook.py:172-230 | the score is the clamped sum over the base, advanced, contextual and simplifying factors |
| PreToolUseHook.PointsAppend | scripts/pretooluse_hook.py:214 | the points of concatenated tables add up |
| PreToolUseHook.RawScoreByTable | scripts/pretooluse_hook.py:174-222 | the raw score is the sum of the four tables' points |
| PreToolUseHook.Points3 | scripts/pretooluse_hook.py:205-209 | a three-factor table earns the sum of its holding factors |
| PreToolUseHook.Points4 | scripts/pretooluse_hook.py:197-202 | a four-factor table earns the sum of its holding factors |
| PreToolUseHook.Points5 | scripts/pretooluse_hook.py:177-183 | a five-factor table earns the sum of its holding factors |
| PreToolUseHook.Points7 | scripts/pretooluse_hook.py:186-194 | a seven-factor table earns the sum of its holding factors |
| PreToolUseHook.TableRanges | scripts/pretooluse_hook.py:174-209 | base, advanced and contextual points lie in [0, 70], [0, 102] and [0, 33]; simplifying points in [-33, 0] |
| PreToolUseHook.ComplexIffRawScore | scripts/pretooluse_hook.py:164-170 | a non-empty pattern is complex exactly when its raw score reaches 60 |
| PreToolUseHook.EmptyPatternSimple | scripts/pretooluse_hook.py:164-167 | a missing or empty pattern is never complex |
| PreToolUseHook.IsComplexPattern | scripts/pretooluse_hook.py:162-170 | a pattern is complex exactly when it is non-empty and its raw score reaches 60 |
| PreToolUseHook.AlnumTables | scripts/pretooluse_hook.py:177-209 | a letters-and-digits pattern earns at most 25 base points, no advanced points, and loses at least 10 |
| PreToolUseHook.AlnumNeverComplex | scripts/pretooluse_hook.py:162-230 | a letters-and-digits pattern is never delegated, whatever its length and options |
| PreToolUseHook.LookaroundsComplex | scripts/pretooluse_hook.py:162-230 | a pattern with a lookahead, a lookbehind and more than two `(` is always delegated |
| PreToolUseHook.AbsPath | scripts/pretooluse_hook.py:123-124 | an absolute path is kept; a relative one becomes absolute under an absolute working directory |
| PreToolUseHook.RelativePathModified | scripts/pretooluse_hook.py:117-129 | a relative path is rewritten to an absolute one under `notebook_path` when that key is present (even as `null`) and under `file_path` otherwise, with all other arguments unchanged |
| PreToolUseHook.HandleFileOperations | scripts/pretooluse_hook.py:115-160 | a file operation continues, rewrites or blocks; it continues when there is no path, and rewrites exactly when the path is relative |
| PreToolUseHook.NullNotebookKeyTakesRewrite | scripts/pretooluse_hook.py:117-128 | with a relative `file_path` and `notebook_path` given as `null`, the absolute path goes under `notebook_path` and `file_path` keeps its relative value |
| PreToolUseHook.DangerousBlocked | scripts/pretooluse_hook.py:131-137 | a path starting with `/etc`, `/sys`, `/proc` or `/dev` is blocked for every file tool |
| PreToolUseHook.FileBlockIff | scripts/pretooluse_hook.py:115-160 | a file operation is blocked exactly for an absolute system path, or an Edit/MultiEdit of a missing file outside a development context |
| PreToolUseHook.OnlySystemPathsBlockReads | scripts/pretooluse_hook.py:139-160 | Read, Write and NotebookEdit are blocked only on system paths |
| PreToolUseHook.AnalyzeRouting | scripts/pretooluse_hook.py:74-83 | only file tools are blocked or rewritten; Grep and Glob are delegated exactly when the pattern is complex; every other tool continues |
| PreToolUseHook.Analyze | scripts/pretooluse_hook.py:74-83 | only file tools are blocked or rewritten; only Grep and Glob are delegated, with their arguments as given; any other tool continues |
| PreToolUseHook.DevelopmentAllowsMissingEdits | scripts/pretooluse_hook.py:150-158 | an edit of a missing file is blocked exactly outside a development context (`test` in the working directory or `debug` in the last user message) |
| PreToolUseHook.RunPreToolUse | scripts/pretooluse_hook.py:15-51 | input that is not JSON gives `continue` with exit 1; otherwise the routing decision with exit 0 |

## Findings

| source | as written | input that shows it | evidently intended | confidence | as-written member | corrected member |
|---|---|---|---|---|---|---|
| hooks/lib/retry_manager.py:253-257 | `now` is a naive `datetime.utcnow()` while `next_retry` is parsed from `...Z` with `+00:00` and is aware, so `now < next_retry` raises `TypeError` | `init_retry("phase_0_0", ...)`, `record_failure` once, then `can_retry`: the entry is within budget and has a retry time | a 2-second wait (exponential, base 1) until the retry time, then a retry | not executed | RetryManager.CanRetryAsWritten, RetryManager.CanRetryCounterexample | RetryManager.CanRetryDecision |
| hooks/lib/retry_manager.py:355-359 | the aware `last_failure` is compared with the naive `cutoff`, which raises | a store with any entry that has failed once, then `cleanup_old_retries` | entries whose last failure is older than the cutoff are removed | not executed | RetryManager.CleanupAsWritten, RetryManager.CleanupNeverRemoves | RetryManager.RetryStore.CleanupOldRetries |

## Left out

- Concurrency and durability: `fcntl` locks, `fsync`, atomic temp-file renames, and the read-modify-write race between processes. Each operation is atomic in the model.
- Clocks and timestamps: `datetime.utcnow`/`now`, ISO 8601 formatting and parsing, file mtimes. Time is a parameter.
- Local-time mtimes compared with a UTC cutoff in log cleanup: the offset is not modelled.
- Log cleanup only covers this writer's own log and archives. Other workflows' files matched by the same glob are not part of this model.
- gzip compression of archives: an archive is the copied line sequence.
- Archive naming: archives are keyed by rotation second, so two rotations in one second overwrite each other, as the overwriting `gzip.open(rotated_path, 'wb')` does.
- JSON parsing and serialisation.
  - A line's serialised byte size is an input of the write.
  - A line that does not parse is `Unparsable`. A line that parses to something other than an object is not represented (see below).
  - Values that are not strings or integers where the hooks expect them are not represented: a non-integer `depth`, `wave_id` or `current_wave`, a non-string `tool_name`, or a non-dictionary `tool_input`. Each of these makes the source raise or compare across types.
- Unicode: `lower`, `isalnum`, `\d`, `\s` and `strip` work on ASCII in the model.
- Python's `int()` also accepts signs, surrounding whitespace and underscores. A phase id whose number is written that way is treated as `BadPhaseNumber`.
- Python's negative list indexing is not modelled.
- A failure while rendering the markdown after the JSON write is modelled as the old status file being kept.
- The command-line `main` functions of the retry manager and the log writer, every message printed to stdout or stderr, and debug logging.
- The lint and security checks of the stop hook (`git`, `ruff`, `pyright` subprocesses) and everything after the continuation check in its `main`.
- Reading the transcript for the last user message in the pre-tool-use hook: the message is a parameter.
- `os.path.abspath` normalisation of `.` and `..`: a relative path is joined to the working directory.
- RetryManager.ExponentialDoubles: requires a non-negative base, because with a negative base the cap makes the doubling false.
- RetryManager.DelayMonotone: requires a non-negative base, because a negative base makes the delays decrease.
- RetryManager.RetryStore.RecordFailure: the `ValueError` is an `Err` result, not an exception.
- PreToolUseHook.RelativePathModified: requires an absolute working directory, which is what the operating system supplies.
- RequireDelegation.SessionsOfLines: covers only session ids that are non-empty and contain no whitespace. Other ids are not read back intact after `strip().split("\n")`.
- RetryManager.CanRetryDecision, RetryManager.WaitAfterFailure and RetryManager.RetryStore.CanRetry state the intended comparison of the current time with the retry time; the code as written raises there (see "Findings", `RetryManager.CanRetryAsWritten`).
- RetryManager.RetryStore.CleanupOldRetries states the intended age comparison; the code as written raises for any entry that has failed (see "Findings", `RetryManager.CleanupAsWritten`).
- A task graph document that is not an object, and `waves` or `phases` members that are not lists (or are lists of non-objects), in both gatekeepers: each makes the code raise and is not represented.
- A `prompt` or nested `prompt` that is not a string in the compliance check: not represented.
- `flags` given as `null` in the pre-tool-use hook's pattern arguments, which makes the membership test raise: not represented.
- Integers in the stored durations too large for a float, which make `float(d)` raise `OverflowError`: not represented.
- A continuation file that is not valid UTF-8, whose `UnicodeDecodeError` the stop hook does not catch: not represented; the file is valid or not valid JSON.
- LogWriter.NoFiltersReadsAll, LogWriter.Writer.ReadEvents and LogWriter.Writer.GetWorkflowStats cover logs whose lines are objects or not JSON at all. A line that is valid JSON but not an object (`5`, `[1]`) is returned as it is by an unfiltered read, makes a filtered read raise on `entry.get`, and makes the statistics raise; the model has no such line.
