/**
 * The delegation gate run before every tool call: it allows delegation tools (and registers the
 * session that used them), and otherwise blocks the call with exit code 2 unless delegation is
 * active, switched off, or granted once.
 *
 * The state directory's marker files are the fields of `DelegationState`; the environment switch
 * and standard input are parameters.
 */
module RequireDelegation {
  import opened Basics
  import opened Strings

  /** Tools that never need delegation, compared ignoring case. */
  const ALLOWED_TOOLS: set<string> := {
    "AskUserQuestion", "TaskCreate", "TaskUpdate", "TaskList", "TaskGet",
    "Skill", "SlashCommand", "Task", "SubagentTask", "AgentTask"
  }

  /** Tools whose use registers the session as delegated, compared exactly. */
  const REGISTERING_TOOLS: set<string> := {"Task", "SubagentTask", "AgentTask", "SlashCommand", "Skill"}

  const ALLOW := 0
  const BLOCK := 2

  /** What standard input parses to. */
  datatype Json =
    | JsonObject(toolName: Option<string>, sessionId: Option<string>)   // `None`: key absent or null
    | JsonOther                                                         // valid JSON that is not an object
    | NotJson

  /** Standard input: unreadable, or its text and what it parses to. */
  datatype Stdin = Unreadable | Text(raw: string, json: Json)

  /** The tool name and session id the hook works with (`""` when missing). */
  datatype Call = Call(toolName: string, sessionId: string)

  // ---------------------------------------------------------------------------------------------
  // The fallback for malformed JSON, `re.search(r'"<key>"\s*:\s*"([^"]*)"', text)`

  /** The length of the run of characters other than `"` that `s` starts with. */
  function QuoteFree(s: string): (n: nat)
    ensures n <= |s| && '"' !in s[..n]
    ensures n < |s| ==> s[n] == '"'
  {
    if |s| == 0 || s[0] == '"' then 0
    else
      var n := 1 + QuoteFree(s[1..]);
      assert s[..n] == [s[0]] + s[1..][..n - 1];
      n
  }

  /** The captured value when a match for `key` starts at the beginning of `s`. */
  function FieldAt(key: string, s: string): Option<string>
  {
    var open := "\"" + key + "\"";
    if !(open <= s) then None else ValueAfterKey(s[|open|..])
  }

  /** The rest of a match after the quoted key: optional spaces, `:`, optional spaces, a quoted value. */
  function ValueAfterKey(t: string): Option<string>
  {
    var afterKey := StripLeft(t);
    if |afterKey| == 0 || afterKey[0] != ':' then None
    else QuotedValue(StripLeft(afterKey[1..]))
  }

  /** The value of a `"..."` at the start of `u` that has no quote inside. */
  function QuotedValue(u: string): Option<string>
  {
    if |u| == 0 || u[0] != '"' then None
    else
      var body := u[1..];
      var n := QuoteFree(body);
      if n == |body| then None else Some(body[..n])
  }

  /** The value of the leftmost match for `key`. */
  function ExtractField(key: string, s: string): Option<string>
    decreases |s|
  {
    if FieldAt(key, s).Some? then FieldAt(key, s)
    else if |s| == 0 then None
    else ExtractField(key, s[1..])
  }

  /** A recovered value has no quote in it and the quoted key occurs in the text. */
  lemma {:induction false} ExtractFieldSound(key: string, s: string)
    requires ExtractField(key, s).Some?
    ensures '"' !in ExtractField(key, s).value
    ensures Contains(s, "\"" + key + "\"")
    decreases |s|
  {
    if FieldAt(key, s).Some? {
      PrefixContains(s, "\"" + key + "\"");
    } else {
      ExtractFieldSound(key, s[1..]);
    }
  }

  /** `"<key>": "<value>"` at the start of the text gives back the value. */
  lemma ExtractFieldOf(key: string, value: string, rest: string)
    requires '"' !in value
    ensures ExtractField(key, "\"" + key + "\"" + (": \"" + (value + ("\"" + rest)))) == Some(value)
  {
    FieldAtOf("\"" + key + "\"", key, value, rest);
  }

  lemma FieldAtOf(open: string, key: string, value: string, rest: string)
    requires open == "\"" + key + "\"" && '"' !in value
    ensures FieldAt(key, open + (": \"" + (value + ("\"" + rest)))) == Some(value)
  {
    var tail := ": \"" + (value + ("\"" + rest));
    var s := open + tail;
    assert s[..|open|] == open;
    assert s[|open|..] == tail;
    ValueAfterKeyOf(value, rest);
  }

  lemma ValueAfterKeyOf(value: string, rest: string)
    requires '"' !in value
    ensures ValueAfterKey(": \"" + (value + ("\"" + rest))) == Some(value)
  {
    var quoted := "\"" + (value + ("\"" + rest));
    var tail := ": " + quoted;
    assert tail == ": \"" + (value + ("\"" + rest));
    assert StripLeft(tail) == tail;
    assert tail[1..] == [' '] + quoted;
    assert StripLeft(tail[1..]) == quoted by {
      assert (tail[1..])[1..] == quoted;
    }
    QuotedValueOf(value, rest);
  }

  lemma QuotedValueOf(value: string, rest: string)
    requires '"' !in value
    ensures QuotedValue("\"" + (value + ("\"" + rest))) == Some(value)
  {
    var body := value + ("\"" + rest);
    assert ("\"" + body)[1..] == body;
    QuoteFreeOf(value, "\"" + rest);
    assert body[..|value|] == value;
  }

  lemma {:induction false} QuoteFreeOf(value: string, rest: string)
    requires '"' !in value && |rest| > 0 && rest[0] == '"'
    ensures QuoteFree(value + rest) == |value|
    decreases |value|
  {
    if |value| == 0 {
      assert value + rest == rest;
    } else {
      QuoteFreeOf(value[1..], rest);
      assert (value + rest)[1..] == value[1..] + rest;
    }
  }

  /** The tool name and session id, or `None` where reading or `data.get` fails (exit 2). */
  function CallOf(stdin: Stdin): (r: Option<Call>)
    ensures r.None? <==> stdin.Unreadable? || (stdin.raw != "" && stdin.json.JsonOther?)
    ensures stdin.Text? && stdin.raw == "" ==> r == Some(Call("", ""))
    ensures stdin.Text? && stdin.raw != "" && stdin.json.JsonObject? && stdin.json.toolName.Some? ==>
              r.Some? && r.value.toolName == stdin.json.toolName.value
  {
    match stdin
    case Unreadable => None
    case Text(raw, json) =>
      if raw == "" then Some(Call("", ""))
      else
        match json
        case JsonObject(t, s) =>
          Some(Call(if t.Some? then t.value else "", if s.Some? then s.value else ""))
        case JsonOther => None
        case NotJson =>
          var t := ExtractField("tool_name", raw);
          var s := ExtractField("session_id", raw);
          Some(Call(if t.Some? then t.value else "", if s.Some? then s.value else ""))
  }

  // ---------------------------------------------------------------------------------------------
  // The sessions file

  /** The set of lines of `delegated_sessions.txt`, stripped and split on newlines; empty when it does not exist. */
  function SessionsOf(file: Option<string>): set<string>
  {
    if file.None? then {}
    else
      var parts := Split(Strip(file.value), '\n');
      set i | 0 <= i < |parts| :: parts[i]
  }

  /** Appends the session on its own line unless the file already lists it. */
  function Register(file: Option<string>, sessionId: string): (r: Option<string>)
    ensures r.Some?
    ensures sessionId in SessionsOf(file) ==> r == file
    ensures sessionId !in SessionsOf(file) ==>
              var old_ := if file.Some? then file.value else "";
              && old_ <= r.value
              && r.value[|old_|..] == sessionId + "\n"
  {
    if sessionId in SessionsOf(file) then file
    else Some((if file.Some? then file.value else "") + sessionId + "\n")
  }

  /** The file this hook writes: one id per line. */
  function Lines(ids: seq<string>): string
  {
    if |ids| == 0 then "" else Lines(ids[..|ids| - 1]) + ids[|ids| - 1] + "\n"
  }

  /** A session id the line format can hold: non-empty and free of whitespace. */
  predicate Clean(id: string)
  {
    |id| > 0 && forall i :: 0 <= i < |id| ==> !IsSpace(id[i])
  }

  lemma {:induction false} LinesJoin(ids: seq<string>)
    requires |ids| > 0
    ensures Lines(ids) == Join(ids, "\n") + "\n"
    decreases |ids|
  {
    if |ids| > 1 {
      var init := ids[..|ids| - 1];
      LinesJoin(init);
      JoinAppend(init, "\n", ids[|ids| - 1]);
      assert init + [ids[|ids| - 1]] == ids;
    }
  }

  /** Stripping a file of clean ids leaves the ids joined by newlines. */
  lemma StripLines(ids: seq<string>)
    requires |ids| > 0 && Clean(ids[0]) && Clean(ids[|ids| - 1])
    ensures Strip(Lines(ids)) == Join(ids, "\n")
  {
    var joined := Join(ids, "\n");
    LinesJoin(ids);
    JoinContains(ids, "\n", 0);
    JoinEndsWith(ids, "\n");
    var last := ids[|ids| - 1];
    assert joined[|joined| - |last|..][|last| - 1] == last[|last| - 1];
    assert joined[0] == ids[0][0];
    StripNewline(joined);
  }

  /** A file of clean ids, one per line, reads back as exactly those ids. */
  lemma SessionsOfLines(ids: seq<string>)
    requires |ids| > 0 && forall i :: 0 <= i < |ids| ==> Clean(ids[i])
    ensures SessionsOf(Some(Lines(ids))) == set i | 0 <= i < |ids| :: ids[i]
  {
    StripLines(ids);
    forall i | 0 <= i < |ids|
      ensures '\n' !in ids[i]
    {
      assert Clean(ids[i]);
      assert IsSpace('\n');
    }
    SplitJoin(ids, '\n');
    assert Split(Strip(Lines(ids)), '\n') == ids;
  }

  /** An id is listed by a file of clean ids exactly when it is one of them. */
  lemma ListedIff(ids: seq<string>, id: string)
    requires Clean(id) && forall i :: 0 <= i < |ids| ==> Clean(ids[i])
    ensures id in SessionsOf(Some(Lines(ids))) <==> id in ids
  {
    if |ids| == 0 {
      assert Lines(ids) == "";
      EmptyFileLists();
    } else {
      SessionsOfLines(ids);
      if id in ids {
        var k :| 0 <= k < |ids| && ids[k] == id;
        assert ids[k] in set i | 0 <= i < |ids| :: ids[i];
      }
    }
  }

  /** An empty file lists only the empty line. */
  lemma EmptyFileLists()
    ensures SessionsOf(Some("")) == {""}
  {
    var parts := Split(Strip(""), '\n');
    assert parts == [""];
    assert parts[0] in SessionsOf(Some(""));
  }

  /** Registering a clean id in a file of clean ids lists it afterwards, appending it only when new. */
  lemma RegisterRemembers(ids: seq<string>, sessionId: string)
    requires Clean(sessionId) && forall i :: 0 <= i < |ids| ==> Clean(ids[i])
    ensures sessionId in ids ==> Register(Some(Lines(ids)), sessionId) == Some(Lines(ids))
    ensures sessionId !in ids ==> Register(Some(Lines(ids)), sessionId) == Some(Lines(ids + [sessionId]))
    ensures sessionId in SessionsOf(Register(Some(Lines(ids)), sessionId))
  {
    ListedIff(ids, sessionId);
    if sessionId !in ids {
      var ids' := ids + [sessionId];
      assert ids'[..|ids'| - 1] == ids;
      assert Lines(ids') == Lines(ids) + sessionId + "\n";
      ListedIff(ids', sessionId);
      assert sessionId == ids'[|ids|];
    }
  }

  // ---------------------------------------------------------------------------------------------
  // The decision

  /** `tool_name.lower() == allowed.lower()` for some allowed tool. */
  predicate Allowlisted(toolName: string)
  {
    exists allowed :: allowed in ALLOWED_TOOLS && Lower(toolName) == Lower(allowed)
  }

  /** Names that mention delegation, ignoring case, or that start with `Task.`. */
  predicate DelegationPattern(toolName: string)
  {
    Contains(Lower(toolName), "delegate") || Contains(Lower(toolName), "delegation") || "Task." <= toolName
  }

  /** Where the hook's decision is taken. */
  datatype Route =
    | Bypassed     // switched off by the environment or the `delegation_disabled` file
    | Crashed      // unreadable input, or input whose `.get` raises
    | Listed       // an allowlisted tool
    | Pattern      // a delegation-looking tool name
    | ByState      // decided by the once flag, the active flag and the sessions file

  function RouteOf(envDisabled: bool, disabled: bool, call: Option<Call>): Route
  {
    if envDisabled || disabled then Bypassed
    else if call.None? then Crashed
    else if call.value.toolName != "" && Allowlisted(call.value.toolName) then Listed
    else if call.value.toolName != "" && DelegationPattern(call.value.toolName) then Pattern
    else ByState
  }

  /** Whether the call registers its session: an exactly-named delegation tool with a session id. */
  predicate Registers(route: Route, call: Option<Call>)
  {
    route == Listed && call.Some? && call.value.toolName in REGISTERING_TOOLS && call.value.sessionId != ""
  }

  /** The session id, `""` when the input could not be read. */
  function SessionOf(call: Option<Call>): string
  {
    if call.Some? then call.value.sessionId else ""
  }

  /** The exit code: 0 allows the tool, 2 blocks it (`block_tool`, or an uncaught error). */
  function Verdict(route: Route, sessionId: string, once: bool, active: bool, sessions: set<string>): (v: int)
    ensures v == ALLOW || v == BLOCK
    ensures v == BLOCK <==>
              route == Crashed || (route == ByState && !once && !active && (sessionId == "" || sessionId !in sessions))
  {
    match route
    case Bypassed => ALLOW
    case Crashed => BLOCK
    case Listed => ALLOW
    case Pattern => ALLOW
    case ByState =>
      if once then ALLOW
      else if active then ALLOW
      else if sessionId != "" && sessionId in sessions then ALLOW
      else BLOCK
  }

  /**
   * A call is allowed exactly when the hook is switched off, or the input is readable and the tool is
   * allowlisted or delegation-looking, or the once flag or the active flag is set, or the session is registered.
   */
  lemma VerdictMeaning(envDisabled: bool, disabled: bool, stdin: Stdin, once: bool, active: bool, sessions: set<string>)
    ensures var call := CallOf(stdin);
            var v := Verdict(RouteOf(envDisabled, disabled, call), SessionOf(call), once, active, sessions);
            && (v == ALLOW || v == BLOCK)
            && (v == ALLOW <==>
                  || envDisabled || disabled
                  || (&& call.Some?
                      && (|| (call.value.toolName != "" && (Allowlisted(call.value.toolName) || DelegationPattern(call.value.toolName)))
                          || once || active
                          || (call.value.sessionId != "" && call.value.sessionId in sessions))))
  {
  }

  /** The once flag lets exactly one otherwise-blocked call through. */
  lemma OnceAllowsOne(call: Call, sessions: set<string>)
    requires RouteOf(false, false, Some(call)) == ByState
    requires call.sessionId !in sessions
    ensures Verdict(ByState, call.sessionId, true, false, sessions) == ALLOW
    ensures Verdict(ByState, call.sessionId, false, false, sessions) == BLOCK
  {
  }

  /**
   * Once a delegation tool has registered a clean session id in a file of clean ids, every later call
   * from that session whose input can be read is allowed, whichever route its decision takes.
   */
  lemma RegisteredSessionAllowed(ids: seq<string>, sessionId: string, route: Route, once: bool, active: bool)
    requires Clean(sessionId) && forall i :: 0 <= i < |ids| ==> Clean(ids[i])
    requires route != Crashed
    ensures Verdict(route, sessionId, once, active, SessionsOf(Register(Some(Lines(ids)), sessionId))) == ALLOW
  {
    RegisterRemembers(ids, sessionId);
  }

  /** The `for allowed in ALLOWED_TOOLS` loop. */
  method IsAllowlisted(toolName: string) returns (allowed: bool)
    ensures allowed <==> Allowlisted(toolName)
  {
    var lowered := Lower(toolName);
    var pending := ALLOWED_TOOLS;
    while pending != {}
      invariant pending <= ALLOWED_TOOLS
      invariant forall a :: a in ALLOWED_TOOLS && a !in pending ==> lowered != Lower(a)
      decreases pending
    {
      var candidate := AnyOf(pending);
      if lowered == Lower(candidate) {
        return true;
      }
      pending := pending - {candidate};
    }
    return false;
  }

  class DelegationState {
    /** `delegation_disabled` exists */
    var disabled: bool
    /** `delegation_active` exists */
    var active: bool
    /** `delegated.once` exists */
    var once: bool
    /** The contents of `delegated_sessions.txt`, `None` while it does not exist. */
    var sessionsFile: Option<string>

    constructor (disabled: bool, active: bool, once: bool, sessionsFile: Option<string>)
      ensures this.disabled == disabled && this.active == active && this.once == once
      ensures this.sessionsFile == sessionsFile
    {
      this.disabled := disabled;
      this.active := active;
      this.once := once;
      this.sessionsFile := sessionsFile;
    }

    /** Registers the session (appending it when new) and touches `delegation_active`. */
    method RegisterSession(sessionId: string)
      modifies this
      ensures sessionsFile == Register(old(sessionsFile), sessionId)
      ensures active && disabled == old(disabled) && once == old(once)
    {
      var existing := SessionsOf(sessionsFile);
      if sessionId !in existing {
        var contents := if sessionsFile.Some? then sessionsFile.value else "";
        sessionsFile := Some(contents + sessionId + "\n");
      }
      active := true;
    }

    /** `main`: the exit code, registering the session of a delegation tool and consuming the once flag. */
    method RunHook(envDisabled: bool, stdin: Stdin) returns (code: int)
      modifies this
      ensures var call := CallOf(stdin);
              var route := RouteOf(envDisabled, old(disabled), call);
              && code == Verdict(route, SessionOf(call), old(once), old(active), SessionsOf(old(sessionsFile)))
              && disabled == old(disabled)
              && sessionsFile == (if Registers(route, call) then Register(old(sessionsFile), call.value.sessionId) else old(sessionsFile))
              && active == (old(active) || Registers(route, call))
              && once == (old(once) && route != ByState)
    {
      if envDisabled || disabled {
        return ALLOW;
      }
      var call := CallOf(stdin);
      if call.None? {
        return BLOCK;
      }
      var toolName := call.value.toolName;
      var sessionId := call.value.sessionId;
      if toolName != "" {
        var listed := IsAllowlisted(toolName);
        if listed {
          if toolName in REGISTERING_TOOLS && sessionId != "" {
            RegisterSession(sessionId);
          }
          return ALLOW;
        }
        if DelegationPattern(toolName) {
          return ALLOW;
        }
      }
      if once {
        once := false;
        return ALLOW;
      }
      if active {
        return ALLOW;
      }
      if sessionsFile.Some? && sessionId != "" && sessionId in SessionsOf(sessionsFile) {
        return ALLOW;
      }
      return BLOCK;
    }
  }
}
