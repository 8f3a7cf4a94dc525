/**
 * The active task graph (`active_task_graph.json`) as the two task-graph hooks read it:
 * waves of phases, an optional `current_wave`, and an optional nested `execution_plan`.
 * Where the hooks treat a `null` member differently from a missing one, the member is a `Field`;
 * `wave_id` is an `Option`, since `wave.get("wave_id")` reads both as `None`.
 */
module TaskGraph {
  import opened Basics

  /** One entry of a wave's `phases`; `atomic` is true only when `is_atomic` is the JSON literal `true`. */
  datatype GraphPhase = GraphPhase(phaseId: Field<string>, atomic: bool, depth: Field<int>)

  /** One entry of `waves`. */
  datatype Wave = Wave(waveId: Option<int>, phases: seq<GraphPhase>)

  /**
   * A task-graph document. An `execution_plan` that is `null` or any other non-object value is
   * `Null`: `.get` fails on each of them alike.
   */
  datatype Graph = Graph(waves: seq<Wave>, currentWave: Field<int>, executionPlan: Field<Graph>)

  /** `phase.get("depth", 0)` for a depth that is not `null`. */
  function DepthOf(p: GraphPhase): (d: int)
    ensures p.depth.Present? ==> d == p.depth.value
    ensures p.depth.Absent? ==> d == 0
  {
    if p.depth.Present? then p.depth.value else 0
  }

  /** Every phase of every wave, wave by wave and in order within each wave. */
  function AllPhases(waves: seq<Wave>): (r: seq<GraphPhase>)
    ensures |waves| == 0 ==> r == []
  {
    if |waves| == 0 then [] else waves[0].phases + AllPhases(waves[1..])
  }

  /** Every phase of wave `w` is among all phases. */
  lemma {:induction false} AllPhasesContains(waves: seq<Wave>, w: nat, k: nat)
    requires w < |waves| && k < |waves[w].phases|
    ensures waves[w].phases[k] in AllPhases(waves)
    decreases |waves|
  {
    if w > 0 {
      AllPhasesContains(waves[1..], w - 1, k);
      assert waves[1..][w - 1] == waves[w];
    } else {
      assert AllPhases(waves)[k] == waves[0].phases[k];
    }
  }

  /** Every phase among all phases belongs to some wave. */
  lemma {:induction false} AllPhasesFrom(waves: seq<Wave>, p: GraphPhase)
    requires p in AllPhases(waves)
    ensures exists w, k :: 0 <= w < |waves| && 0 <= k < |waves[w].phases| && waves[w].phases[k] == p
    decreases |waves|
  {
    if p in waves[0].phases {
      var k :| 0 <= k < |waves[0].phases| && waves[0].phases[k] == p;
      assert waves[0].phases[k] == p;
    } else {
      AllPhasesFrom(waves[1..], p);
      var w, k :| 0 <= w < |waves[1..]| && 0 <= k < |waves[1..][w].phases| && waves[1..][w].phases[k] == p;
      assert waves[w + 1].phases[k] == p;
    }
  }

  /** Appending a wave appends its phases. */
  lemma {:induction false} AllPhasesAppend(waves: seq<Wave>, w: Wave)
    ensures AllPhases(waves + [w]) == AllPhases(waves) + w.phases
    decreases |waves|
  {
    if |waves| == 0 {
      assert waves + [w] == [w];
      assert AllPhases([w]) == w.phases + AllPhases([]);
    } else {
      AllPhasesAppend(waves[1..], w);
      assert (waves + [w])[1..] == waves[1..] + [w];
    }
  }
}
