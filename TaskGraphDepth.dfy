/**
 * The depth-enforcement hook run after `Task` calls: every atomic phase of the active task
 * graph must sit at depth 3 or more, otherwise the hook exits 1 and lists the offenders.
 */
module TaskGraphDepth {
  import opened Basics
  import opened TaskGraph

  const MIN_DEPTH: int := 3

  /** One reported offender: the printed `phase_id` and its depth. */
  datatype Violation = Violation(phaseId: string, depth: int)

  /** An atomic phase whose depth is `null`: comparing `None < 3` raises, and the hook exits 1. */
  predicate Breaks(p: GraphPhase)
  {
    p.atomic && p.depth.Null?
  }

  /** No phase of `phases` makes the scan raise. */
  predicate NoBreak(phases: seq<GraphPhase>)
  {
    forall p :: p in phases ==> !Breaks(p)
  }

  /** An atomic phase shallower than `MIN_DEPTH`. */
  predicate Violates(p: GraphPhase)
  {
    p.atomic && !p.depth.Null? && DepthOf(p) < MIN_DEPTH
  }

  /** How the f-string prints `phase.get("phase_id", "unknown")`. */
  function PrintedId(id: Field<string>): (r: string)
    ensures id.Present? ==> r == id.value
    ensures id.Absent? ==> r == "unknown"
    ensures id.Null? ==> r == "None"
  {
    match id
    case Absent => "unknown"
    case Null => "None"
    case Present(s) => s
  }

  function Report(p: GraphPhase): Violation
  {
    Violation(PrintedId(p.phaseId), DepthOf(p))
  }

  /** The offenders among `phases`, in order. */
  function Offenders(phases: seq<GraphPhase>): seq<Violation>
  {
    if |phases| == 0 then []
    else Offenders(phases[..|phases| - 1]) + (if Violates(phases[|phases| - 1]) then [Report(phases[|phases| - 1])] else [])
  }

  /**
   * `task_graph.get("execution_plan", task_graph)`, `None` when the member is `null` or not an
   * object, so that the following `.get("waves", [])` raises.
   */
  function Plan(g: Graph): (r: Option<Graph>)
    ensures g.executionPlan.Absent? ==> r == Some(g)
    ensures g.executionPlan.Present? ==> r == Some(g.executionPlan.value)
    ensures g.executionPlan.Null? ==> r.None?
  {
    match g.executionPlan
    case Absent => Some(g)
    case Null => None
    case Present(plan) => Some(plan)
  }

  /** The offender list reports exactly the violating phases. */
  lemma {:induction false} OffendersExact(phases: seq<GraphPhase>, v: Violation)
    ensures v in Offenders(phases) <==> exists p :: p in phases && Violates(p) && Report(p) == v
    decreases |phases|
  {
    if |phases| > 0 {
      var init := phases[..|phases| - 1];
      var last := phases[|phases| - 1];
      OffendersExact(init, v);
      assert phases == init + [last];
      if exists p :: p in phases && Violates(p) && Report(p) == v {
        var p :| p in phases && Violates(p) && Report(p) == v;
        if p != last {
          assert p in init;
        }
      }
    }
  }

  /** There are no offenders exactly when every atomic phase with a non-`null` depth is deep enough. */
  lemma {:induction false} NoOffenders(phases: seq<GraphPhase>)
    ensures Offenders(phases) == [] <==>
              forall p :: p in phases && p.atomic && !p.depth.Null? ==> DepthOf(p) >= MIN_DEPTH
    decreases |phases|
  {
    if |phases| > 0 {
      var init := phases[..|phases| - 1];
      NoOffenders(init);
      assert phases == init + [phases[|phases| - 1]];
    }
  }

  lemma {:induction false} OffendersAppend(xs: seq<GraphPhase>, ys: seq<GraphPhase>)
    ensures Offenders(xs + ys) == Offenders(xs) + Offenders(ys)
    decreases |ys|
  {
    if |ys| == 0 {
      assert xs + ys == xs;
    } else {
      var init := ys[..|ys| - 1];
      OffendersAppend(xs, init);
      assert (xs + ys)[..|xs + ys| - 1] == xs + init;
    }
  }

  /**
   * The collecting loop: offenders of every wave, wave by wave. `broke` is set when the loop reaches
   * an atomic phase with a `null` depth, where the comparison raises and nothing is reported.
   */
  method CollectViolations(plan: Graph) returns (violations: seq<Violation>, broke: bool)
    ensures broke <==> !NoBreak(AllPhases(plan.waves))
    ensures !broke ==> violations == Offenders(AllPhases(plan.waves))
  {
    violations := [];
    var w := 0;
    while w < |plan.waves|
      invariant 0 <= w <= |plan.waves|
      invariant NoBreak(AllPhases(plan.waves[..w]))
      invariant violations == Offenders(AllPhases(plan.waves[..w]))
    {
      var wave := plan.waves[w];
      var k := 0;
      ghost var before := violations;
      AllPhasesAppend(plan.waves[..w], wave);
      assert plan.waves[..w + 1] == plan.waves[..w] + [wave];
      while k < |wave.phases|
        invariant 0 <= k <= |wave.phases|
        invariant NoBreak(wave.phases[..k])
        invariant violations == before + Offenders(wave.phases[..k])
      {
        var phase := wave.phases[k];
        if phase.atomic && phase.depth.Null? {
          AllPhasesContains(plan.waves, w, k);
          return violations, true;
        }
        if phase.atomic && DepthOf(phase) < MIN_DEPTH {
          var phaseId := PrintedId(phase.phaseId);
          violations := violations + [Violation(phaseId, DepthOf(phase))];
        }
        assert wave.phases[..k + 1] == wave.phases[..k] + [phase];
        k := k + 1;
      }
      assert wave.phases[..k] == wave.phases;
      OffendersAppend(AllPhases(plan.waves[..w]), wave.phases);
      w := w + 1;
    }
    assert plan.waves[..w] == plan.waves;
    broke := false;
  }

  /**
   * The hook's exit code, given whether the graph file exists and what reading it yields. A read
   * or parse failure is reported and exits 1; a `null` plan or a `null` atomic depth raises, which
   * also exits 1.
   */
  function DepthExit(fileExists: bool, graph: Option<Graph>): int
  {
    if !fileExists then 0
    else if graph.None? then 1
    else if Plan(graph.value).None? then 1
    else if !NoBreak(AllPhases(Plan(graph.value).value.waves)) then 1
    else if Offenders(AllPhases(Plan(graph.value).value.waves)) != [] then 1
    else 0
  }

  /** `main`: the exit code and the reported offenders (none when the scan raised). */
  method CheckDepth(fileExists: bool, graph: Option<Graph>) returns (code: int, violations: seq<Violation>)
    ensures code == DepthExit(fileExists, graph)
    ensures violations != [] <==>
              && fileExists && graph.Some? && Plan(graph.value).Some?
              && NoBreak(AllPhases(Plan(graph.value).value.waves))
              && Offenders(AllPhases(Plan(graph.value).value.waves)) != []
    ensures violations != [] ==> violations == Offenders(AllPhases(Plan(graph.value).value.waves))
  {
    if !fileExists {
      return 0, [];
    }
    if graph.None? {
      return 1, [];
    }
    var plan := Plan(graph.value);
    if plan.None? {
      return 1, [];
    }
    var broke;
    violations, broke := CollectViolations(plan.value);
    if broke {
      return 1, [];
    }
    code := if |violations| > 0 then 1 else 0;
  }

  /** Every atomic phase of every wave has a non-`null` depth of at least 3. */
  predicate DeepEnough(waves: seq<Wave>)
  {
    forall w, k :: 0 <= w < |waves| && 0 <= k < |waves[w].phases| && waves[w].phases[k].atomic ==>
      !waves[w].phases[k].depth.Null? && DepthOf(waves[w].phases[k]) >= MIN_DEPTH
  }

  /** The scan neither raises nor reports exactly when every atomic phase is deep enough. */
  lemma ScanPasses(waves: seq<Wave>)
    ensures NoBreak(AllPhases(waves)) && Offenders(AllPhases(waves)) == [] <==> DeepEnough(waves)
  {
    NoOffenders(AllPhases(waves));
    forall p | p in AllPhases(waves)
      ensures exists w, k :: 0 <= w < |waves| && 0 <= k < |waves[w].phases| && waves[w].phases[k] == p
    {
      AllPhasesFrom(waves, p);
    }
    forall w, k | 0 <= w < |waves| && 0 <= k < |waves[w].phases|
      ensures waves[w].phases[k] in AllPhases(waves)
    {
      AllPhasesContains(waves, w, k);
    }
  }

  /**
   * The hook passes exactly when there is no graph, or the graph is readable, its plan is an object
   * (the document itself when it has no `execution_plan`), and every atomic phase of every wave of
   * the plan has a depth of at least 3 (a missing depth counts as 0; a `null` one fails).
   */
  lemma DepthExitMeaning(fileExists: bool, graph: Option<Graph>)
    ensures DepthExit(fileExists, graph) == 0 || DepthExit(fileExists, graph) == 1
    ensures DepthExit(fileExists, graph) == 0 <==>
              !fileExists ||
              (graph.Some? && Plan(graph.value).Some? && DeepEnough(Plan(graph.value).value.waves))
  {
    if fileExists && graph.Some? && Plan(graph.value).Some? {
      ScanPasses(Plan(graph.value).value.waves);
    }
  }

  /** Depth 2 is reported, depth 3 is not, and a `null` plan fails the hook even with no waves at all. */
  lemma DepthBoundary(id: string)
    ensures var shallow := Graph([Wave(Some(0), [GraphPhase(Present(id), true, Present(2))])], Absent, Absent);
            DepthExit(true, Some(shallow)) == 1
    ensures var deep := Graph([Wave(Some(0), [GraphPhase(Present(id), true, Present(3))])], Absent, Absent);
            DepthExit(true, Some(deep)) == 0
    ensures DepthExit(true, Some(Graph([], Absent, Null))) == 1
  {
    var p2 := GraphPhase(Present(id), true, Present(2));
    var p3 := GraphPhase(Present(id), true, Present(3));
    assert AllPhases([Wave(Some(0), [p2])]) == [p2];
    assert Offenders([p2]) == [Violation(id, 2)];
    assert AllPhases([Wave(Some(0), [p3])]) == [p3];
    assert Offenders([p3]) == [];
  }
}
