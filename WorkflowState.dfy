/**
 * The delegation system's workflow state (`workflow.json`) and its human-readable view
 * (`WORKFLOW_STATUS.md`): a task split into phases `phase_0 .. phase_{n-1}`, a `current_phase`
 * pointer, a workflow status, and the auto-advance that activates the next phase when one completes.
 *
 * The state file is read back on every update; `WorkflowStore.stored` is what reading it yields
 * (`None` when it is missing or unreadable) and `WorkflowStore.markdown` is the status file.
 */
module WorkflowState {
  import opened Basics
  import opened Strings

  const PENDING := "pending"
  const ACTIVE := "active"
  const COMPLETED := "completed"
  const FAILED := "failed"

  /** One entry of `workflow["phases"]`. */
  datatype Phase = Phase(
    id: string, title: string, agent: string, status: string,
    deliverables: seq<string>, contextForNext: string)

  /** The whole of `workflow.json`. */
  datatype Workflow = Workflow(
    id: string, task: string, status: string, currentPhase: Option<string>, phases: seq<Phase>)

  /** Why `update_phase_status` wrote nothing. */
  datatype UpdateError =
    | NoWorkflow       // no readable state file
    | PhaseNotFound    // no phase carries the id
    | BadPhaseNumber   // completing a phase whose id has no integer after the first `_` (`int()` raises)

  /** `f"phase_{i}"` */
  function PhaseId(i: nat): string
  {
    "phase_" + NatToString(i)
  }

  /** Phase ids of different positions are different. */
  lemma PhaseIdInjective(a: nat, b: nat)
    requires PhaseId(a) == PhaseId(b)
    ensures a == b
  {
    assert PhaseId(a)[6..] == NatToString(a);
    assert PhaseId(b)[6..] == NatToString(b);
    NatToStringInjective(a, b);
  }

  /** `create_workflow_state`: phase `i` is `phase_i`, pending, with no deliverables or context. */
  function NewWorkflow(id: string, task: string, specs: seq<(string, string)>): Workflow
  {
    Workflow(id, task, PENDING, None,
      seq(|specs|, i requires 0 <= i < |specs| => Phase(PhaseId(i), specs[i].0, specs[i].1, PENDING, [], "")))
  }

  /**
   * A new workflow is pending with no current phase, its phases are pending and empty, and each
   * phase `i` is the one the lookup finds for `phase_i`.
   */
  lemma NewWorkflowShape(id: string, task: string, specs: seq<(string, string)>, i: nat)
    requires i < |specs|
    ensures var w := NewWorkflow(id, task, specs);
            && w.status == PENDING && w.currentPhase.None? && |w.phases| == |specs|
            && w.phases[i].title == specs[i].0 && w.phases[i].agent == specs[i].1
            && w.phases[i].status == PENDING && w.phases[i].deliverables == [] && w.phases[i].contextForNext == ""
            && FirstIndex(w.phases, PhaseId(i)) == Some(i)
  {
    var w := NewWorkflow(id, task, specs);
    forall j | 0 <= j < i
      ensures w.phases[j].id != PhaseId(i)
    {
      if w.phases[j].id == PhaseId(i) {
        PhaseIdInjective(j, i);
      }
    }
  }

  /** The position of the first phase with `id`, as the `for ... break` lookup finds it. */
  function FirstIndex(phases: seq<Phase>, id: string): (r: Option<nat>)
    ensures r.Some? ==> r.value < |phases| && phases[r.value].id == id
    ensures r.Some? ==> forall j :: 0 <= j < r.value ==> phases[j].id != id
    ensures r.None? <==> forall j :: 0 <= j < |phases| ==> phases[j].id != id
  {
    if |phases| == 0 then None
    else if phases[0].id == id then Some(0)
    else
      var rest := FirstIndex(phases[1..], id);
      if rest.Some? then Some(rest.value + 1) else None
  }

  /** `phase_id.split("_")[1]`, or `None` where Python raises `IndexError`. */
  function PhaseNumber(id: string): Option<string>
  {
    var parts := Split(id, '_');
    if |parts| >= 2 then Some(parts[1]) else None
  }

  /** `int(phase_id.split("_")[1])` for an unsigned run of digits; `None` where Python raises. */
  function ParseIndex(id: string): Option<nat>
  {
    var num := PhaseNumber(id);
    if num.Some? && |num.value| > 0 && AllDigits(num.value) then Some(ParseDigits(num.value)) else None
  }

  lemma DigitsHaveNoUnderscore(s: string)
    requires AllDigits(s)
    ensures '_' !in s
  {
  }

  /** The number of `phase_i` is the text of `i`, and `int()` of it is `i`. */
  lemma PhaseIdNumber(i: nat)
    ensures PhaseNumber(PhaseId(i)) == Some(NatToString(i))
    ensures ParseIndex(PhaseId(i)) == Some(i)
  {
    var digits := NatToString(i);
    assert PhaseId(i) == "phase" + ['_'] + digits;
    assert '_' !in "phase";
    DigitsHaveNoUnderscore(digits);
    SplitAtFirst("phase", digits, '_');
    SplitNoSeparator(digits, '_');
    ParseNatToString(i);
  }

  /** The lookup loop's assignment to the matching phase. */
  function SetPhase(p: Phase, status: string, deliverables: Option<seq<string>>, contextForNext: Option<string>): Phase
  {
    p.(status := status,
       deliverables := if deliverables.Some? then deliverables.value else p.deliverables,
       contextForNext := if contextForNext.Some? then contextForNext.value else p.contextForNext)
  }

  /** Two workflows with the same id and task, and the same phases by id and title, in the same order. */
  predicate SameOutline(a: Workflow, b: Workflow)
  {
    && a.id == b.id && a.task == b.task && |a.phases| == |b.phases|
    && forall j :: 0 <= j < |a.phases| ==> a.phases[j].id == b.phases[j].id && a.phases[j].title == b.phases[j].title
  }

  /** The auto-advance that follows the phase update; it changes statuses and the current phase only. */
  function Advance(w: Workflow, phaseId: string, status: string): (r: Result<Workflow, UpdateError>)
    ensures r.Ok? ==> SameOutline(r.value, w)
  {
    if status == COMPLETED then
      var idx := ParseIndex(phaseId);
      if idx.None? then Err(BadPhaseNumber)
      else if idx.value + 1 < |w.phases| then
        var next := idx.value + 1;
        Ok(w.(currentPhase := Some(PhaseId(next)),
              phases := w.phases[next := w.phases[next].(status := ACTIVE)],
              status := ACTIVE))
      else
        Ok(w.(currentPhase := None, status := COMPLETED))
    else if status == ACTIVE && w.currentPhase.None? then
      Ok(w.(currentPhase := Some(phaseId), status := ACTIVE))
    else if status == FAILED then
      Ok(w.(status := FAILED))
    else
      Ok(w)
  }

  /** `update_phase_status` on what the state file holds: the workflow it writes, or why it writes nothing. */
  function Update(
    stored: Option<Workflow>, phaseId: string, status: string,
    deliverables: Option<seq<string>>, contextForNext: Option<string>): (r: Result<Workflow, UpdateError>)
    ensures r.Ok? ==> stored.Some? && SameOutline(r.value, stored.value)
    ensures r.Ok? ==> exists j :: 0 <= j < |stored.value.phases| && stored.value.phases[j].id == phaseId
  {
    if stored.None? then Err(NoWorkflow)
    else
      var w := stored.value;
      var k := FirstIndex(w.phases, phaseId);
      if k.None? then Err(PhaseNotFound)
      else
        var w' := w.(phases := w.phases[k.value := SetPhase(w.phases[k.value], status, deliverables, contextForNext)]);
        assert SameOutline(w', w);
        Advance(w', phaseId, status)
  }

  /** An update writes nothing exactly when there is no workflow, no such phase, or a completed id without a number. */
  lemma UpdateFails(
    stored: Option<Workflow>, phaseId: string, status: string,
    deliverables: Option<seq<string>>, contextForNext: Option<string>)
    ensures stored.None? ==> Update(stored, phaseId, status, deliverables, contextForNext) == Err(NoWorkflow)
    ensures stored.Some? && (forall j :: 0 <= j < |stored.value.phases| ==> stored.value.phases[j].id != phaseId) ==>
              Update(stored, phaseId, status, deliverables, contextForNext) == Err(PhaseNotFound)
    ensures Update(stored, phaseId, status, deliverables, contextForNext).Err? <==>
              || stored.None?
              || FirstIndex(stored.value.phases, phaseId).None?
              || (status == COMPLETED && ParseIndex(phaseId).None?)
  {
  }

  /**
   * A successful update changes the first phase with the id (status; deliverables and context only
   * when given), activates the phase after it on completion, and leaves every other phase alone.
   */
  lemma UpdatePhases(
    w: Workflow, phaseId: string, status: string,
    deliverables: Option<seq<string>>, contextForNext: Option<string>, j: nat)
    requires Update(Some(w), phaseId, status, deliverables, contextForNext).Ok?
    requires j < |w.phases|
    ensures var w' := Update(Some(w), phaseId, status, deliverables, contextForNext).value;
            var k := FirstIndex(w.phases, phaseId).value;
            var touched := if j == k then SetPhase(w.phases[j], status, deliverables, contextForNext) else w.phases[j];
            && |w'.phases| == |w.phases|
            && w'.id == w.id && w'.task == w.task
            && w'.phases[j] ==
                 if status == COMPLETED && j == ParseIndex(phaseId).value + 1 then touched.(status := ACTIVE)
                 else touched
  {
    var k := FirstIndex(w.phases, phaseId).value;
    var w1 := w.(phases := w.phases[k := SetPhase(w.phases[k], status, deliverables, contextForNext)]);
    assert Update(Some(w), phaseId, status, deliverables, contextForNext) == Advance(w1, phaseId, status);
  }

  /** Completing phase `i` activates `phase_{i+1}` and points at it, or completes the workflow after the last phase. */
  lemma CompleteAdvances(
    w: Workflow, i: nat, deliverables: Option<seq<string>>, contextForNext: Option<string>)
    requires i < |w.phases| && w.phases[i].id == PhaseId(i)
    requires forall j :: 0 <= j < i ==> w.phases[j].id != PhaseId(i)
    ensures var r := Update(Some(w), PhaseId(i), COMPLETED, deliverables, contextForNext);
            && r.Ok?
            && r.value.phases[i].status == COMPLETED
            && (i + 1 < |w.phases| ==>
                  r.value.currentPhase == Some(PhaseId(i + 1)) && r.value.status == ACTIVE
                  && r.value.phases[i + 1].status == ACTIVE)
            && (i + 1 == |w.phases| ==> r.value.currentPhase == None && r.value.status == COMPLETED)
  {
    PhaseIdNumber(i);
    assert FirstIndex(w.phases, PhaseId(i)) == Some(i);
  }

  /**
   * Activating a phase sets the pointer only when none is set; failing a phase fails the workflow
   * and keeps the pointer; any other status leaves the workflow fields as they were.
   */
  lemma UpdateWorkflowFields(
    w: Workflow, phaseId: string, status: string,
    deliverables: Option<seq<string>>, contextForNext: Option<string>)
    requires Update(Some(w), phaseId, status, deliverables, contextForNext).Ok?
    requires status != COMPLETED
    ensures var w' := Update(Some(w), phaseId, status, deliverables, contextForNext).value;
            && (status == ACTIVE && w.currentPhase.None? ==> w'.currentPhase == Some(phaseId) && w'.status == ACTIVE)
            && (status == ACTIVE && w.currentPhase.Some? ==> w'.currentPhase == w.currentPhase && w'.status == w.status)
            && (status == FAILED ==> w'.currentPhase == w.currentPhase && w'.status == FAILED)
            && (status != ACTIVE && status != FAILED ==> w'.currentPhase == w.currentPhase && w'.status == w.status)
  {
  }

  /**
   * The state after creating a workflow, activating `phase_0` and completing `k` phases in order:
   * phases before `k` completed, phase `k` active and current, the rest pending.
   */
  ghost predicate Forward(w: Workflow, k: nat)
  {
    && k <= |w.phases|
    && (forall j :: 0 <= j < |w.phases| ==> w.phases[j].id == PhaseId(j))
    && (forall j :: 0 <= j < |w.phases| ==>
          w.phases[j].status == if j < k then COMPLETED else if j == k then ACTIVE else PENDING)
    && w.currentPhase == (if k < |w.phases| then Some(PhaseId(k)) else None)
    && w.status == (if k < |w.phases| then ACTIVE else COMPLETED)
  }

  /** Activating `phase_0` of a new workflow with at least one phase starts the forward sequence. */
  lemma ActivateFirst(id: string, task: string, specs: seq<(string, string)>, deliverables: Option<seq<string>>, contextForNext: Option<string>)
    requires |specs| > 0
    ensures var r := Update(Some(NewWorkflow(id, task, specs)), PhaseId(0), ACTIVE, deliverables, contextForNext);
            r.Ok? && Forward(r.value, 0)
  {
    var w := NewWorkflow(id, task, specs);
    assert w.phases[0].id == PhaseId(0);
    assert FirstIndex(w.phases, PhaseId(0)) == Some(0);
  }

  /** In the forward sequence `phase_k` is found at position `k`. */
  lemma ForwardFinds(w: Workflow, k: nat)
    requires Forward(w, k) && k < |w.phases|
    ensures FirstIndex(w.phases, PhaseId(k)) == Some(k)
  {
    forall j | 0 <= j < k
      ensures w.phases[j].id != PhaseId(k)
    {
      if w.phases[j].id == PhaseId(k) {
        PhaseIdInjective(j, k);
      }
    }
  }

  /** Completing the current phase moves phase `j` one step along the forward sequence. */
  lemma CompleteCurrentPhase(w: Workflow, k: nat, deliverables: Option<seq<string>>, contextForNext: Option<string>, j: nat)
    requires Forward(w, k) && k < |w.phases| && j < |w.phases|
    requires FirstIndex(w.phases, PhaseId(k)) == Some(k) && ParseIndex(PhaseId(k)) == Some(k)
    ensures Update(Some(w), PhaseId(k), COMPLETED, deliverables, contextForNext).Ok?
    ensures Update(Some(w), PhaseId(k), COMPLETED, deliverables, contextForNext).value.phases[j].id == PhaseId(j)
    ensures Update(Some(w), PhaseId(k), COMPLETED, deliverables, contextForNext).value.phases[j].status ==
              if j < k + 1 then COMPLETED else if j == k + 1 then ACTIVE else PENDING
  {
    UpdatePhases(w, PhaseId(k), COMPLETED, deliverables, contextForNext, j);
  }

  /** Completing the current phase moves the forward sequence one step on. */
  lemma CompleteCurrent(w: Workflow, k: nat, deliverables: Option<seq<string>>, contextForNext: Option<string>)
    requires Forward(w, k) && k < |w.phases|
    ensures Update(Some(w), PhaseId(k), COMPLETED, deliverables, contextForNext).Ok?
    ensures Forward(Update(Some(w), PhaseId(k), COMPLETED, deliverables, contextForNext).value, k + 1)
  {
    ForwardFinds(w, k);
    PhaseIdNumber(k);
    CompleteAdvances(w, k, deliverables, contextForNext);
    var r := Update(Some(w), PhaseId(k), COMPLETED, deliverables, contextForNext).value;
    forall j | 0 <= j < |w.phases|
      ensures r.phases[j].id == PhaseId(j)
      ensures r.phases[j].status == if j < k + 1 then COMPLETED else if j == k + 1 then ACTIVE else PENDING
    {
      CompleteCurrentPhase(w, k, deliverables, contextForNext, j);
    }
  }

  /** Along the forward sequence at most one phase is active, and `current_phase` names exactly that one. */
  lemma ForwardSingleActive(w: Workflow, k: nat, j: nat)
    requires Forward(w, k) && j < |w.phases|
    ensures w.phases[j].status == ACTIVE <==> w.currentPhase == Some(w.phases[j].id)
    ensures w.phases[j].status == ACTIVE ==> j == k
  {
    if w.currentPhase == Some(w.phases[j].id) {
      PhaseIdInjective(j, k);
    }
  }

  // ---------------------------------------------------------------------------------------------
  // WORKFLOW_STATUS.md

  /** The first line of a phase's block: checkbox, number, title and completed / current marker. */
  function PhaseHeading(p: Phase, num: string, isCurrent: bool): string
  {
    if p.status == COMPLETED then "- [x] Phase " + num + ": " + p.title + " \U{2713}"
    else "- [ ] Phase " + num + ": " + p.title + (if isCurrent then " \U{25C0} current" else "")
  }

  function DeliverablesLine(p: Phase): string
  {
    "  - **Deliverables:** " + Join(p.deliverables, ", ")
  }

  function AgentLine(p: Phase): string
  {
    "  - **Agent:** " + p.agent
  }

  /** A phase's lines, or `None` where its id has no `_` and rendering raises. */
  function PhaseBlock(p: Phase, current: Option<string>): Option<seq<string>>
  {
    var num := PhaseNumber(p.id);
    if num.None? then None
    else Some([PhaseHeading(p, num.value, current == Some(p.id))]
              + (if |p.deliverables| > 0 then [DeliverablesLine(p)] else [])
              + [AgentLine(p), ""])
  }

  /** All phases' lines in order. */
  function PhaseBlocks(phases: seq<Phase>, current: Option<string>): Option<seq<string>>
  {
    if |phases| == 0 then Some([])
    else
      var first := PhaseBlock(phases[0], current);
      var rest := PhaseBlocks(phases[1..], current);
      if first.None? || rest.None? then None else Some(first.value + rest.value)
  }

  /** The header lines: task, status and, when `current_phase` is set and found, its title. */
  function HeaderLines(w: Workflow): seq<string>
  {
    var top := ["# Workflow: " + w.task, "", "**Status:** " + w.status, ""];
    var current :=
      if w.currentPhase.Some? && w.currentPhase.value != "" then
        var k := FirstIndex(w.phases, w.currentPhase.value);
        if k.Some? then ["**Current:** " + w.phases[k.value].title, ""] else []
      else [];
    top + current + ["## Phases", ""]
  }

  /**
   * `generate_markdown`: the status report, or `None` where rendering a phase number raises, which
   * happens exactly when some phase id has no `_`.
   */
  function GenerateMarkdown(w: Workflow): (r: Option<string>)
    ensures r.Some? <==> forall j :: 0 <= j < |w.phases| ==> PhaseNumber(w.phases[j].id).Some?
  {
    PhaseBlocksSucceed(w.phases, w.currentPhase);
    var blocks := PhaseBlocks(w.phases, w.currentPhase);
    if blocks.None? then None else Some(Join(HeaderLines(w) + blocks.value, "\n"))
  }

  /** Each phase's own lines all appear among the rendered phase lines. */
  lemma {:induction false} PhaseBlocksContain(phases: seq<Phase>, current: Option<string>, i: nat)
    requires PhaseBlocks(phases, current).Some? && i < |phases|
    ensures PhaseBlock(phases[i], current).Some?
    ensures forall line :: line in PhaseBlock(phases[i], current).value ==> line in PhaseBlocks(phases, current).value
    decreases |phases|
  {
    if i > 0 {
      PhaseBlocksContain(phases[1..], current, i - 1);
      assert phases[1..][i - 1] == phases[i];
    }
  }

  /** Rendering succeeds exactly when every phase id has a `_`, in particular for `phase_i` ids. */
  lemma {:induction false} PhaseBlocksSucceed(phases: seq<Phase>, current: Option<string>)
    ensures PhaseBlocks(phases, current).Some? <==> forall j :: 0 <= j < |phases| ==> PhaseNumber(phases[j].id).Some?
    decreases |phases|
  {
    if |phases| > 0 {
      PhaseBlocksSucceed(phases[1..], current);
      assert forall j :: 1 <= j < |phases| ==> phases[1..][j - 1] == phases[j];
    }
  }

  lemma LineInJoin(lines: seq<string>, line: string)
    requires line in lines
    ensures Contains(Join(lines, "\n"), line)
  {
    var k :| 0 <= k < |lines| && lines[k] == line;
    JoinContains(lines, "\n", k);
  }

  /** The report starts with the task heading. */
  lemma MarkdownStartsWithTask(w: Workflow)
    requires GenerateMarkdown(w).Some?
    ensures ("# Workflow: " + w.task) <= GenerateMarkdown(w).value
  {
    var lines := HeaderLines(w) + PhaseBlocks(w.phases, w.currentPhase).value;
    JoinContains(lines, "\n", 0);
  }

  /** Every line of phase `i`'s block appears in the report. */
  lemma BlockInMarkdown(w: Workflow, i: nat)
    requires GenerateMarkdown(w).Some? && i < |w.phases|
    ensures PhaseBlock(w.phases[i], w.currentPhase).Some?
    ensures forall line :: line in PhaseBlock(w.phases[i], w.currentPhase).value ==>
              Contains(GenerateMarkdown(w).value, line)
  {
    PhaseBlocksContain(w.phases, w.currentPhase, i);
    var lines := HeaderLines(w) + PhaseBlocks(w.phases, w.currentPhase).value;
    forall line | line in PhaseBlock(w.phases[i], w.currentPhase).value
      ensures Contains(GenerateMarkdown(w).value, line)
    {
      LineInJoin(lines, line);
    }
  }

  /** Phase `i`'s heading has a line of its own block after it among the rendered phase lines. */
  lemma {:induction false} HeadingFollowed(phases: seq<Phase>, current: Option<string>, i: nat)
    requires PhaseBlocks(phases, current).Some? && i < |phases|
    ensures PhaseBlock(phases[i], current).Some?
    ensures exists k :: 0 <= k < |PhaseBlocks(phases, current).value| - 1 &&
              PhaseBlocks(phases, current).value[k] == PhaseBlock(phases[i], current).value[0]
    decreases |phases|
  {
    var first := PhaseBlock(phases[0], current).value;
    var rest := PhaseBlocks(phases[1..], current).value;
    assert PhaseBlocks(phases, current).value == first + rest;
    if i == 0 {
      assert |first| >= 3;
      assert (first + rest)[0] == first[0];
    } else {
      HeadingFollowed(phases[1..], current, i - 1);
      assert phases[1..][i - 1] == phases[i];
      var k :| 0 <= k < |rest| - 1 && rest[k] == PhaseBlock(phases[i], current).value[0];
      assert (first + rest)[|first| + k] == rest[k];
    }
  }

  /** Phase `i`'s heading sits between two newlines of the report. */
  lemma HeadingInMarkdown(w: Workflow, i: nat)
    requires GenerateMarkdown(w).Some? && i < |w.phases|
    ensures PhaseBlock(w.phases[i], w.currentPhase).Some?
    ensures Contains(GenerateMarkdown(w).value, "\n" + PhaseBlock(w.phases[i], w.currentPhase).value[0] + "\n")
  {
    var blocks := PhaseBlocks(w.phases, w.currentPhase).value;
    HeadingFollowed(w.phases, w.currentPhase, i);
    var k :| 0 <= k < |blocks| - 1 && blocks[k] == PhaseBlock(w.phases[i], w.currentPhase).value[0];
    var lines := HeaderLines(w) + blocks;
    assert |HeaderLines(w)| >= 6;
    assert lines[|HeaderLines(w)| + k] == blocks[k];
    JoinContainsInner(lines, "\n", |HeaderLines(w)| + k);
  }

  /**
   * Phase `i`'s heading is a whole line of the report (a newline on each side):
   * `- [x] Phase k: title ✓` when completed, `- [ ] Phase k: title ◀ current` when it is the
   * unfinished current phase, and `- [ ] Phase k: title` with nothing after it otherwise.
   */
  lemma MarkdownShowsPhase(w: Workflow, i: nat)
    requires GenerateMarkdown(w).Some? && i < |w.phases|
    ensures PhaseNumber(w.phases[i].id).Some?
    ensures var p := w.phases[i];
            w.phases[i].status == COMPLETED ==>
              Contains(GenerateMarkdown(w).value, "\n" + ("- [x] Phase " + PhaseNumber(p.id).value + ": " + p.title + " \U{2713}") + "\n")
    ensures var p := w.phases[i];
            p.status != COMPLETED && w.currentPhase == Some(p.id) ==>
              Contains(GenerateMarkdown(w).value, "\n" + ("- [ ] Phase " + PhaseNumber(p.id).value + ": " + p.title + " \U{25C0} current") + "\n")
    ensures var p := w.phases[i];
            p.status != COMPLETED && w.currentPhase != Some(p.id) ==>
              Contains(GenerateMarkdown(w).value, "\n" + ("- [ ] Phase " + PhaseNumber(p.id).value + ": " + p.title) + "\n")
  {
    PhaseBlocksContain(w.phases, w.currentPhase, i);
    HeadingInMarkdown(w, i);
    var p := w.phases[i];
    var heading := PhaseBlock(p, w.currentPhase).value[0];
    if p.status != COMPLETED && w.currentPhase != Some(p.id) {
      assert heading == "- [ ] Phase " + PhaseNumber(p.id).value + ": " + p.title + "";
      assert heading == "- [ ] Phase " + PhaseNumber(p.id).value + ": " + p.title;
    }
  }

  /** Phase `i`'s agent always appears in the report, and its deliverables when there are any. */
  lemma MarkdownShowsAgent(w: Workflow, i: nat)
    requires GenerateMarkdown(w).Some? && i < |w.phases|
    ensures Contains(GenerateMarkdown(w).value, "  - **Agent:** " + w.phases[i].agent)
    ensures |w.phases[i].deliverables| > 0 ==>
              Contains(GenerateMarkdown(w).value, "  - **Deliverables:** " + Join(w.phases[i].deliverables, ", "))
  {
    BlockInMarkdown(w, i);
    var block := PhaseBlock(w.phases[i], w.currentPhase).value;
    assert AgentLine(w.phases[i]) in block;
    if |w.phases[i].deliverables| > 0 {
      assert DeliverablesLine(w.phases[i]) in block;
    }
  }

  /** A phase without deliverables renders no deliverables line: heading, agent, blank. */
  lemma NoDeliverablesNoLine(p: Phase, current: Option<string>)
    requires PhaseBlock(p, current).Some? && |p.deliverables| == 0
    ensures |PhaseBlock(p, current).value| == 3
    ensures forall line :: line in PhaseBlock(p, current).value ==> !("  - **Deliverables:** " <= line)
  {
    var block := PhaseBlock(p, current).value;
    forall line | line in block
      ensures !("  - **Deliverables:** " <= line)
    {
      if line == block[0] {
        assert line[0] == '-';
      } else if line == block[1] {
        assert line[4] == '*' && "  - **Deliverables:** "[4] == '*';
        assert line[5] == '*';
        assert line[6] == 'A';
      }
    }
  }

  /** A freshly created workflow renders, and lists phase `i` unchecked under its number and title. */
  lemma NewWorkflowMarkdown(id: string, task: string, specs: seq<(string, string)>, i: nat)
    requires i < |specs|
    ensures var md := GenerateMarkdown(NewWorkflow(id, task, specs));
            && md.Some?
            && ("# Workflow: " + task) <= md.value
            && Contains(md.value, "- [ ] Phase " + NatToString(i) + ": " + specs[i].0)
            && Contains(md.value, "  - **Agent:** " + specs[i].1)
  {
    var w := NewWorkflow(id, task, specs);
    forall j | 0 <= j < |w.phases|
      ensures PhaseNumber(w.phases[j].id).Some?
    {
      PhaseIdNumber(j);
    }
    PhaseBlocksSucceed(w.phases, w.currentPhase);
    MarkdownStartsWithTask(w);
    BlockInMarkdown(w, i);
    MarkdownShowsAgent(w, i);
    PhaseIdNumber(i);
    var p := w.phases[i];
    assert p == Phase(PhaseId(i), specs[i].0, specs[i].1, PENDING, [], "");
    assert PhaseHeading(p, NatToString(i), false) == "- [ ] Phase " + NatToString(i) + ": " + specs[i].0 + "";
    assert PhaseBlock(p, None).value[0] == PhaseHeading(p, NatToString(i), false);
    assert PhaseBlock(p, None).value[0] in PhaseBlock(p, None).value;
    assert "- [ ] Phase " + NatToString(i) + ": " + specs[i].0 + "" == "- [ ] Phase " + NatToString(i) + ": " + specs[i].0;
  }

  // ---------------------------------------------------------------------------------------------
  // The state files

  class WorkflowStore {
    /** What reading `workflow.json` yields: `None` when the file is missing or not valid JSON. */
    var stored: Option<Workflow>
    /** The contents of `WORKFLOW_STATUS.md`, `None` while it does not exist. */
    var markdown: Option<string>

    constructor (stored: Option<Workflow>, markdown: Option<string>)
      ensures this.stored == stored && this.markdown == markdown
    {
      this.stored := stored;
      this.markdown := markdown;
    }

    /** `get_workflow_state`: the stored workflow, `None` when there is none or it cannot be read. */
    method GetWorkflowState() returns (w: Option<Workflow>)
      ensures w == stored
    {
      w := stored;
    }

    /**
     * `create_workflow_state`: `stamp` is the `YYYYMMDD_HHMMSS` of the clock; writes the new workflow
     * and its report and returns its `wf_` id.
     */
    method CreateWorkflow(stamp: string, task: string, specs: seq<(string, string)>) returns (id: string)
      modifies this
      ensures id == "wf_" + stamp && "wf_" <= id
      ensures stored == Some(NewWorkflow(id, task, specs))
      ensures markdown == GenerateMarkdown(NewWorkflow(id, task, specs)) && markdown.Some?
    {
      id := "wf_" + stamp;
      var workflow := NewWorkflow(id, task, specs);
      stored := Some(workflow);
      if |specs| > 0 {
        NewWorkflowMarkdown(id, task, specs, 0);
      } else {
        PhaseBlocksSucceed(workflow.phases, workflow.currentPhase);
      }
      markdown := GenerateMarkdown(workflow);
    }

    /**
     * `update_phase_status`: finds the phase, updates it, auto-advances, then rewrites both files.
     * When nothing is found nothing is written; when the report cannot be rendered the state file
     * is already written and the report keeps its old contents.
     */
    method UpdatePhaseStatus(
      phaseId: string, status: string, deliverables: Option<seq<string>>, contextForNext: Option<string>)
      returns (outcome: Result<Workflow, UpdateError>)
      modifies this
      ensures outcome == Update(old(stored), phaseId, status, deliverables, contextForNext)
      ensures outcome.Err? ==> stored == old(stored) && markdown == old(markdown)
      ensures outcome.Ok? ==>
                && stored == Some(outcome.value)
                && markdown == (if GenerateMarkdown(outcome.value).Some? then GenerateMarkdown(outcome.value) else old(markdown))
    {
      var loaded := GetWorkflowState();
      if loaded.None? {
        return Err(NoWorkflow);
      }
      var workflow := loaded.value;
      var phases := workflow.phases;
      var found := false;
      var i := 0;
      while i < |phases|
        invariant 0 <= i <= |phases|
        invariant forall j :: 0 <= j < i ==> workflow.phases[j].id != phaseId
        invariant !found && phases == workflow.phases
      {
        if phases[i].id == phaseId {
          phases := phases[i := SetPhase(phases[i], status, deliverables, contextForNext)];
          found := true;
          break;
        }
        i := i + 1;
      }
      if !found {
        return Err(PhaseNotFound);
      }
      assert FirstIndex(workflow.phases, phaseId) == Some(i);
      workflow := workflow.(phases := phases);
      ghost var updated := workflow;
      assert Update(old(stored), phaseId, status, deliverables, contextForNext) == Advance(updated, phaseId, status);

      if status == COMPLETED {
        var idx := ParseIndex(phaseId);
        if idx.None? {
          return Err(BadPhaseNumber);
        }
        var next := idx.value + 1;
        if next < |workflow.phases| {
          workflow := workflow.(currentPhase := Some(PhaseId(next)));
          workflow := workflow.(phases := workflow.phases[next := workflow.phases[next].(status := ACTIVE)]);
          workflow := workflow.(status := ACTIVE);
        } else {
          workflow := workflow.(currentPhase := None);
          workflow := workflow.(status := COMPLETED);
        }
      } else if status == ACTIVE && workflow.currentPhase.None? {
        workflow := workflow.(currentPhase := Some(phaseId));
        workflow := workflow.(status := ACTIVE);
      } else if status == FAILED {
        workflow := workflow.(status := FAILED);
      }
      assert Advance(updated, phaseId, status) == Ok(workflow);

      stored := Some(workflow);
      var report := GenerateMarkdown(workflow);
      if report.Some? {
        markdown := report;
      }
      outcome := Ok(workflow);
    }
  }
}
