/**
 * The compliance hook run before `Task` calls: while a task graph is active, a `Task` prompt
 * must carry a `Phase ID: phase_<wave>_<n>` marker naming a phase of the graph whose wave
 * has been reached. Exit 0 allows the call, exit 1 blocks it.
 */
module TaskGraphCompliance {
  import opened Basics
  import opened Strings
  import opened TaskGraph

  /** Standard input is read up to this many characters; reaching it counts as oversized. */
  const MAX_STDIN_SIZE: nat := 1048576

  const MARKER := "Phase ID: phase_"

  /**
   * The fields of the hook's JSON input the decision uses. For `tool_name`, `prompt` and
   * `subagent_type`, a `null` member is read as `None` just as a missing one is, and `None` is what
   * the model writes for both.
   */
  datatype ToolInput = ToolInput(
    toolName: Option<string>, prompt: Option<string>, parameters: Parameters,
    subagentType: Option<string>)

  /**
   * The `parameters` member: missing, an object (with its `prompt`, `None` when missing or `null`),
   * or a value that has no `.get` (`null`, a list, a string, a number).
   */
  datatype Parameters = NoParameters | Object(prompt: Option<string>) | NotObject

  // ---------------------------------------------------------------------------------------------
  // The phase marker, `re.search(r"Phase ID: (phase_\d+_\d+)", prompt)`

  /** The length of the run of digits `s` starts with. */
  function DigitRun(s: string): (n: nat)
    ensures n <= |s| && AllDigits(s[..n])
    ensures n < |s| ==> !IsDigit(s[n])
  {
    if |s| == 0 || !IsDigit(s[0]) then 0
    else
      var n := 1 + DigitRun(s[1..]);
      assert s[..n] == [s[0]] + s[1..][..n - 1];
      n
  }

  /** The group when the text after the marker starts with `\d+_\d+`. */
  function MatchAfter(rest: string): Option<string>
  {
    var a := DigitRun(rest);
    if a == 0 || a == |rest| || rest[a] != '_' then None
    else
      var b := DigitRun(rest[a + 1..]);
      if b == 0 then None else Some(Group(rest, a, b))
  }

  /** The group `phase_<a digits>_<b digits>` read from the text after the marker. */
  function Group(rest: string, a: nat, b: nat): string
    requires a + 1 + b <= |rest|
  {
    "phase_" + rest[..a + 1 + b]
  }

  /** The marker's group when a match starts at the beginning of `s`. */
  function MatchAt(s: string): Option<string>
  {
    if !(MARKER <= s) then None else MatchAfter(s[|MARKER|..])
  }

  /** The group of the leftmost match, `None` when the prompt has no marker. */
  function ExtractPhaseId(s: string): (r: Option<string>)
    ensures r.Some? ==> "phase_" <= r.value && Contains(s, "Phase ID: " + r.value)
    decreases |s|
  {
    if MatchAt(s).Some? then
      MatchShape(s);
      MatchAt(s)
    else if |s| == 0 then None
    else ExtractPhaseId(s[1..])
  }

  /** Dropping the first character shifts every later position by one. */
  lemma SuffixShift(s: string)
    requires |s| > 0
    ensures forall i :: 1 <= i <= |s| ==> s[i..] == s[1..][i - 1..]
  {
  }

  /** The search finds nothing exactly when no position starts a match. */
  lemma {:induction false} ExtractNone(s: string)
    ensures ExtractPhaseId(s).None? <==> forall i :: 0 <= i <= |s| ==> MatchAt(s[i..]).None?
    decreases |s|
  {
    assert s[0..] == s;
    if MatchAt(s).None? && |s| > 0 {
      var t := s[1..];
      ExtractNone(t);
      SuffixShift(s);
      if ExtractPhaseId(t).None? {
        forall i | 1 <= i <= |s|
          ensures MatchAt(s[i..]).None?
        {
          assert MatchAt(t[i - 1..]).None?;
        }
      } else {
        var k :| 0 <= k <= |t| && MatchAt(t[k..]).Some?;
        assert MatchAt(s[k + 1..]).Some?;
      }
    }
  }

  /** A found id is the group of the leftmost position where a match starts. */
  lemma {:induction false} ExtractLeftmost(s: string)
    requires ExtractPhaseId(s).Some?
    ensures exists i :: 0 <= i <= |s| && MatchAt(s[i..]) == ExtractPhaseId(s)
                        && forall j :: 0 <= j < i ==> MatchAt(s[j..]).None?
    decreases |s|
  {
    assert s[0..] == s;
    if MatchAt(s).None? {
      var t := s[1..];
      ExtractLeftmost(t);
      SuffixShift(s);
      var i :| 0 <= i <= |t| && MatchAt(t[i..]) == ExtractPhaseId(t)
               && forall j :: 0 <= j < i ==> MatchAt(t[j..]).None?;
      assert MatchAt(s[i + 1..]) == ExtractPhaseId(s);
      forall j | 0 <= j < i + 1
        ensures MatchAt(s[j..]).None?
      {
        if j > 0 {
          assert MatchAt(t[j - 1..]).None?;
        }
      }
    }
  }

  /** The group read after the marker is a `phase_` id, and the marker text precedes it. */
  lemma GroupShape(rest: string, a: nat, b: nat)
    requires a + 1 + b <= |rest|
    ensures "phase_" <= Group(rest, a, b)
    ensures "Phase ID: " + Group(rest, a, b) == MARKER + rest[..a + 1 + b]
  {
  }

  /** A match is `phase_` followed by two digit runs joined by `_`, and the prompt holds it after `Phase ID: `. */
  lemma MatchShape(s: string)
    requires MatchAt(s).Some?
    ensures "phase_" <= MatchAt(s).value
    ensures ("Phase ID: " + MatchAt(s).value) <= s
  {
    var rest := s[|MARKER|..];
    var a := DigitRun(rest);
    var b := DigitRun(rest[a + 1..]);
    assert MatchAt(s).value == Group(rest, a, b);
    GroupShape(rest, a, b);
    assert s == MARKER + rest;
    assert rest[..a + 1 + b] <= rest;
  }

  /** Leading digits followed by a non-digit form the whole run. */
  lemma {:induction false} DigitRunOf(digits: string, tail: string)
    requires AllDigits(digits)
    requires |tail| == 0 || !IsDigit(tail[0])
    ensures DigitRun(digits + tail) == |digits|
    decreases |digits|
  {
    if |digits| == 0 {
      assert digits + tail == tail;
    } else {
      DigitRunOf(digits[1..], tail);
      assert (digits + tail)[1..] == digits[1..] + tail;
    }
  }

  /** After the marker, matching continues on the rest of the text. */
  lemma MatchAfterMarker(rest: string)
    ensures MatchAt(MARKER + rest) == MatchAfter(rest)
  {
    var s := MARKER + rest;
    assert s[..|MARKER|] == MARKER;
    assert s[|MARKER|..] == rest;
  }

  /** Runs of `a` and `b` digits joined by `_` give the group. */
  lemma MatchAfterRuns(rest: string, a: nat, b: nat)
    requires 0 < a < |rest| && DigitRun(rest) == a && rest[a] == '_'
    requires 0 < b && DigitRun(rest[a + 1..]) == b
    ensures MatchAfter(rest) == Some(Group(rest, a, b))
  {
  }

  /** Two digit runs joined by `_` and then a non-digit give the group. */
  lemma MatchAfterDigits(da: string, db: string, tail: string)
    requires |da| > 0 && AllDigits(da) && |db| > 0 && AllDigits(db)
    requires |tail| == 0 || !IsDigit(tail[0])
    ensures MatchAfter(da + ("_" + (db + tail))) == Some("phase_" + (da + ("_" + db)))
  {
    var after := "_" + (db + tail);
    var rest := da + after;
    DigitRunOf(da, after);
    assert rest[|da|] == '_' by {
      assert rest[|da|] == after[0];
    }
    assert rest[|da| + 1..] == db + tail by {
      assert after[1..] == db + tail;
    }
    DigitRunOf(db, tail);
    MatchAfterRuns(rest, |da|, |db|);
    assert rest[..|da| + 1 + |db|] == da + ("_" + db) by {
      assert rest[..|da|] == da;
      assert rest[|da| + 1..][..|db|] == db;
    }
  }

  /** The marker followed by two digit runs joined by `_` and then a non-digit matches. */
  lemma MatchDigits(da: string, db: string, tail: string)
    requires |da| > 0 && AllDigits(da) && |db| > 0 && AllDigits(db)
    requires |tail| == 0 || !IsDigit(tail[0])
    ensures MatchAt(MARKER + (da + ("_" + (db + tail)))) == Some("phase_" + (da + ("_" + db)))
  {
    MatchAfterMarker(da + ("_" + (db + tail)));
    MatchAfterDigits(da, db, tail);
  }

  /** A prompt that starts with `Phase ID: phase_<a>_<b>` yields `phase_<a>_<b>`. */
  lemma ExtractMarker(a: nat, b: nat, tail: string)
    requires |tail| == 0 || !IsDigit(tail[0])
    ensures ExtractPhaseId(MARKER + (NatToString(a) + ("_" + (NatToString(b) + tail))))
              == Some("phase_" + (NatToString(a) + ("_" + NatToString(b))))
  {
    var s := MARKER + (NatToString(a) + ("_" + (NatToString(b) + tail)));
    MatchDigits(NatToString(a), NatToString(b), tail);
    assert MatchAt(s).Some?;
  }

  /** A prompt without the literal marker yields nothing. */
  lemma {:induction false} ExtractNeedsMarker(s: string)
    requires !Contains(s, MARKER)
    ensures ExtractPhaseId(s).None?
    decreases |s|
  {
    if |s| > 0 {
      ExtractNeedsMarker(s[1..]);
    }
  }

  // ---------------------------------------------------------------------------------------------
  // The wave lookup

  /** Whether some phase of `wave` has the id. */
  predicate InWave(wave: Wave, phaseId: string)
  {
    exists k :: 0 <= k < |wave.phases| && wave.phases[k].phaseId == Present(phaseId)
  }

  /** `Some(wave_id)` of the first wave holding the phase, `None` when no wave does. */
  function FirstWave(waves: seq<Wave>, phaseId: string): (r: Option<Option<int>>)
    ensures r.None? <==> forall w :: 0 <= w < |waves| ==> !InWave(waves[w], phaseId)
    ensures r.Some? ==> exists w :: 0 <= w < |waves| && InWave(waves[w], phaseId) && r.value == waves[w].waveId
                                    && forall v :: 0 <= v < w ==> !InWave(waves[v], phaseId)
  {
    if |waves| == 0 then None
    else if InWave(waves[0], phaseId) then Some(waves[0].waveId)
    else
      var r := FirstWave(waves[1..], phaseId);
      assert forall w :: 1 <= w < |waves| ==> waves[w] == waves[1..][w - 1];
      r
  }

  /** The nested lookup loop with its two `break`s. */
  method FindPhaseWave(waves: seq<Wave>, phaseId: string) returns (exists_: bool, wave: Option<int>)
    ensures exists_ <==> FirstWave(waves, phaseId).Some?
    ensures exists_ ==> wave == FirstWave(waves, phaseId).value
  {
    exists_ := false;
    wave := None;
    var w := 0;
    while w < |waves|
      invariant 0 <= w <= |waves|
      invariant !exists_ && FirstWave(waves, phaseId) == FirstWave(waves[w..], phaseId)
    {
      var k := 0;
      while k < |waves[w].phases|
        invariant 0 <= k <= |waves[w].phases|
        invariant forall j :: 0 <= j < k ==> waves[w].phases[j].phaseId != Present(phaseId)
      {
        if waves[w].phases[k].phaseId == Present(phaseId) {
          exists_ := true;
          wave := waves[w].waveId;
          break;
        }
        k := k + 1;
      }
      if exists_ {
        assert waves[w..][0] == waves[w];
        break;
      }
      assert waves[w..][1..] == waves[w + 1..];
      w := w + 1;
    }
  }

  // ---------------------------------------------------------------------------------------------
  // The decision

  /**
   * `tool_input.get("prompt", "") or tool_input.get("parameters", {}).get("prompt", "")`, `None`
   * when the second operand is needed and `parameters` has no `.get`, which raises.
   */
  function PromptOf(input: ToolInput): (r: Option<string>)
    ensures input.prompt.Some? && input.prompt.value != "" ==> r == Some(input.prompt.value)
    ensures r.None? <==> (input.prompt.None? || input.prompt.value == "") && input.parameters.NotObject?
    ensures r.Some? && r.value != "" ==>
              r == input.prompt || (input.parameters.Object? && r == input.parameters.prompt)
  {
    if input.prompt.Some? && input.prompt.value != "" then input.prompt
    else
      match input.parameters
      case NoParameters => Some("")
      case NotObject => None
      case Object(prompt) => if prompt.Some? then prompt else Some("")
  }

  /** The prompt the hook goes on with, `""` when reading it raised. */
  function PromptText(input: ToolInput): string
  {
    if PromptOf(input).Some? then PromptOf(input).value else ""
  }

  /** The tool name: the first command-line argument when there is one, else the input's `tool_name`. */
  function ToolNameOf(input: ToolInput, argument: Option<string>): string
  {
    if argument.Some? then argument.value
    else if input.toolName.Some? then input.toolName.value
    else ""
  }

  /**
   * What reading the graph file yields: a decoding or I/O error the hook catches (`Unreadable`),
   * bytes that are not UTF-8, whose `UnicodeDecodeError` it does not catch (`NotUtf8`), or the graph.
   */
  datatype GraphRead = Unreadable | NotUtf8 | Parsed(doc: Graph)

  /**
   * `main`'s exit code. `stdin` is what was read (at most `MAX_STDIN_SIZE` characters) and `input`
   * its parse (`None`: not JSON, or JSON that is not an object, on which `.get` raises; both exit 1);
   * `graph` is what reading the graph file yields. A raised exception exits 1.
   */
  function ComplianceExit(
    stdin: string, input: Option<ToolInput>, argument: Option<string>,
    graphExists: bool, graph: GraphRead): (code: int)
    ensures code == 0 || code == 1
    ensures input.Some? && 0 < |stdin| < MAX_STDIN_SIZE && (ToolNameOf(input.value, argument) != "Task" || !graphExists) ==> code == 0
    ensures code == 1 && input.Some? && 0 < |stdin| < MAX_STDIN_SIZE && graph.Parsed? && PromptOf(input.value).Some? ==>
              ExtractPhaseId(PromptText(input.value)).None? || !WaveReached(graph.doc.waves, ExtractPhaseId(PromptText(input.value)).value, graph.doc.currentWave)
  {
    if |stdin| >= MAX_STDIN_SIZE then 1
    else if stdin == "" then 1
    else if input.None? then 1
    else if ToolNameOf(input.value, argument) != "Task" then 0
    else if !graphExists then 0
    else if PromptOf(input.value).None? then 1
    else if PromptText(input.value) == "" then 0
    else if input.value.subagentType == Some("delegation-orchestrator") then 0
    else if graph.Unreadable? then 0
    else if graph.NotUtf8? then 1
    else
      var phaseId := ExtractPhaseId(PromptText(input.value));
      if phaseId.None? then 1
      else
        var found := FirstWave(graph.doc.waves, phaseId.value);
        if found.None? then 1
        else if !Reached(found.value, graph.doc.currentWave) then 1
        else 0
  }

  /** `main` with the lookup loop. */
  method CheckCompliance(
    stdin: string, input: Option<ToolInput>, argument: Option<string>,
    graphExists: bool, graph: GraphRead) returns (code: int)
    ensures code == ComplianceExit(stdin, input, argument, graphExists, graph)
  {
    if |stdin| >= MAX_STDIN_SIZE || stdin == "" || input.None? {
      return 1;
    }
    var toolInput := input.value;
    var toolName := if toolInput.toolName.Some? then toolInput.toolName.value else "";
    if argument.Some? {
      toolName := argument.value;
    }
    if toolName != "Task" || !graphExists {
      return 0;
    }
    var read := PromptOf(toolInput);
    if read.None? {
      return 1;
    }
    var prompt := read.value;
    if prompt == "" || toolInput.subagentType == Some("delegation-orchestrator") {
      return 0;
    }
    var phaseId := ExtractPhaseId(prompt);
    if graph.Unreadable? {
      return 0;
    } else if graph.NotUtf8? {
      return 1;
    }
    if phaseId.None? {
      return 1;
    }
    var phaseExists, phaseWave := FindPhaseWave(graph.doc.waves, phaseId.value);
    if !phaseExists {
      return 1;
    }
    if phaseWave.Some? {
      // `phase_wave > current_wave` raises when `current_wave` is `null`
      if graph.doc.currentWave.Null? {
        return 1;
      }
      var currentWave := if graph.doc.currentWave.Present? then graph.doc.currentWave.value else 0;
      if phaseWave.value > currentWave {
        return 1;
      }
    }
    return 0;
  }

  /**
   * Whether a phase of wave `waveId` may start under `task_graph.get("current_wave", 0)`: always
   * when the wave has no id; otherwise only when `current_wave` is not `null` and the wave is not
   * past it (missing counts as 0).
   */
  predicate Reached(waveId: Option<int>, current: Field<int>)
  {
    waveId.None? || (current.Present? && waveId.value <= current.value) || (current.Absent? && waveId.value <= 0)
  }

  /** The first wave holding the phase exists and has been reached. */
  predicate WaveReached(waves: seq<Wave>, phaseId: string, current: Field<int>)
  {
    exists w :: 0 <= w < |waves| && InWave(waves[w], phaseId)
                && (forall v :: 0 <= v < w ==> !InWave(waves[v], phaseId))
                && Reached(waves[w].waveId, current)
  }

  lemma FirstWaveReached(waves: seq<Wave>, phaseId: string, current: Field<int>)
    ensures WaveReached(waves, phaseId, current) <==>
              FirstWave(waves, phaseId).Some? && Reached(FirstWave(waves, phaseId).value, current)
  {
    if FirstWave(waves, phaseId).Some? {
      var w' :| 0 <= w' < |waves| && InWave(waves[w'], phaseId) && FirstWave(waves, phaseId).value == waves[w'].waveId
                && forall v :: 0 <= v < w' ==> !InWave(waves[v], phaseId);
      if WaveReached(waves, phaseId, current) {
        var w :| 0 <= w < |waves| && InWave(waves[w], phaseId)
                 && (forall v :: 0 <= v < w ==> !InWave(waves[v], phaseId))
                 && Reached(waves[w].waveId, current);
        assert w == w';
      }
    }
  }

  /** Every input gets 0 (allow) or 1 (block). */
  lemma ComplianceExitCodes(
    stdin: string, input: Option<ToolInput>, argument: Option<string>,
    graphExists: bool, graph: GraphRead)
    ensures ComplianceExit(stdin, input, argument, graphExists, graph) in {0, 1}
  {
  }

  /**
   * The hook allows a call exactly when the input is well formed and the call is not a `Task`, or
   * no graph is active, or else the prompt can be read and is empty, or it starts the orchestrator,
   * or the graph cannot be read or parsed (bytes that are not UTF-8 raise instead), or the marked phase's first wave is reached; everything else is
   * blocked.
   */
  lemma ComplianceAllows(
    stdin: string, input: Option<ToolInput>, argument: Option<string>,
    graphExists: bool, graph: GraphRead)
    ensures ComplianceExit(stdin, input, argument, graphExists, graph) == 0 <==>
              && 0 < |stdin| < MAX_STDIN_SIZE && input.Some?
              && (|| ToolNameOf(input.value, argument) != "Task"
                  || !graphExists
                  || (&& PromptOf(input.value).Some?
                      && (|| PromptText(input.value) == ""
                          || input.value.subagentType == Some("delegation-orchestrator")
                          || graph.Unreadable?
                          || (&& graph.Parsed?
                              && ExtractPhaseId(PromptText(input.value)).Some?
                              && WaveReached(graph.doc.waves, ExtractPhaseId(PromptText(input.value)).value, graph.doc.currentWave)))))
  {
    if 0 < |stdin| < MAX_STDIN_SIZE && input.Some? && graph.Parsed? && ExtractPhaseId(PromptText(input.value)).Some? {
      FirstWaveReached(graph.doc.waves, ExtractPhaseId(PromptText(input.value)).value, graph.doc.currentWave);
    }
  }

  /**
   * A `Task` call under an active graph whose `prompt` is missing or empty and whose `parameters`
   * is `null` (or any non-object) fails with exit 1, whatever the graph says.
   */
  lemma NonObjectParametersFail(stdin: string, input: ToolInput, argument: Option<string>, graph: GraphRead)
    requires 0 < |stdin| < MAX_STDIN_SIZE && ToolNameOf(input, argument) == "Task"
    requires input.prompt.None? || input.prompt.value == ""
    requires input.parameters.NotObject?
    ensures ComplianceExit(stdin, Some(input), argument, true, graph) == 1
  {
  }

  /** A marked phase of a wave with an id fails with exit 1 when `current_wave` is `null`. */
  lemma NullCurrentWaveFails(stdin: string, input: ToolInput, argument: Option<string>, graph: Graph)
    requires 0 < |stdin| < MAX_STDIN_SIZE && ToolNameOf(input, argument) == "Task"
    requires PromptText(input) != "" && input.subagentType != Some("delegation-orchestrator")
    requires ExtractPhaseId(PromptText(input)).Some?
    requires FirstWave(graph.waves, ExtractPhaseId(PromptText(input)).value) == Some(Some(0))
    requires graph.currentWave.Null?
    ensures ComplianceExit(stdin, Some(input), argument, true, Parsed(graph)) == 1
  {
  }

  /**
   * A graph file that is not UTF-8 raises a decoding error the hook does not catch, so a `Task`
   * call with a prompt that reaches the read fails with exit 1 whatever its marker says.
   */
  lemma NonUtf8GraphFails(stdin: string, input: ToolInput, argument: Option<string>)
    requires 0 < |stdin| < MAX_STDIN_SIZE && ToolNameOf(input, argument) == "Task"
    requires PromptOf(input).Some? && PromptText(input) != ""
    requires input.subagentType != Some("delegation-orchestrator")
    ensures ComplianceExit(stdin, Some(input), argument, true, NotUtf8) == 1
    ensures ComplianceExit(stdin, Some(input), argument, true, Unreadable) == 0
  {
  }

  /** A `Task` call under a readable graph whose prompt lacks the marker is blocked. */
  lemma MissingMarkerBlocks(stdin: string, input: ToolInput, argument: Option<string>, graph: Graph)
    requires 0 < |stdin| < MAX_STDIN_SIZE && ToolNameOf(input, argument) == "Task"
    requires PromptText(input) != "" && input.subagentType != Some("delegation-orchestrator")
    requires !Contains(PromptText(input), MARKER)
    ensures ComplianceExit(stdin, Some(input), argument, true, Parsed(graph)) == 1
    ensures ComplianceExit(stdin, Some(input), argument, true, Unreadable) == 0
  {
    ExtractNeedsMarker(PromptText(input));
  }
}
