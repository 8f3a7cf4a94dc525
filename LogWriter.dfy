/**
 * The execution log writer of one workflow: an append-only JSONL file of
 * event records, rotated into archives once it reaches a size limit, read
 * back with filters and a limit, summarised into statistics, and cleaned up
 * by age. The file system is modelled by the writer's fields: the live file's
 * lines, whether it exists, its modification time, and the rotated archives
 * keyed by the second of their rotation (which is also their modification
 * time). JSON text and gzip are not modelled: a line is either a parsed
 * record together with the byte length of its serialized text, or an
 * unparsable line.
 */
module LogWriter {
  import opened Basics

  const DEFAULT_MAX_SIZE_MB: int := 10
  const DEFAULT_RETENTION_DAYS: int := 30
  const BYTES_PER_MB: int := 1024 * 1024
  const SECONDS_PER_DAY: int := 86400

  /** A JSON value stored in a log entry. */
  datatype Value = Str(s: string) | Num(n: int) | Bool(b: bool) | Null | Obj(fields: map<string, Value>)

  /** A log entry: a JSON object. */
  type Entry = map<string, Value>

  /**
   * One line of the live file: a record and the length of its text, or text that is not valid JSON.
   * Valid JSON that is not an object has no constructor here.
   */
  datatype Line = Record(entry: Entry, bytes: nat) | Unparsable(bytes: nat)

  /** The optional filters of `read_events`; each one applies only when it is a non-empty string. */
  datatype Filters = Filters(eventType: Option<string>, phaseId: Option<string>, status: Option<string>)

  /** Per-phase statistics: event count, and the status and agent of the first event of the phase. */
  datatype PhaseStats = PhaseStats(events: nat, status: Option<Value>, agent: Option<Value>)

  /** The dictionary returned by `get_workflow_stats`. */
  datatype Stats = Stats(
    totalEvents: nat,
    eventTypes: map<Value, nat>,
    phases: map<Value, PhaseStats>,
    errors: nat,
    retries: nat)

  predicate Truthy(s: Option<string>) { s.Some? && s.value != "" }

  /** `entry.get(key)` */
  function Get(e: Entry, key: string): Option<Value>
  {
    if key in e then Some(e[key]) else None
  }

  /** The size of the live file: the byte lengths of its lines added up. */
  function Size(lines: seq<Line>): nat
  {
    if |lines| == 0 then 0 else Size(lines[..|lines| - 1]) + lines[|lines| - 1].bytes
  }

  lemma SizeAppend(lines: seq<Line>, line: Line)
    ensures Size(lines + [line]) == Size(lines) + line.bytes
  {
    assert (lines + [line])[..|lines|] == lines;
  }

  /** The keys `write_event` itself may set. */
  const StandardKeys: set<string> :=
    {"timestamp", "event_type", "workflow_id", "status", "phase_id", "agent", "duration_ms", "error", "context"}

  /**
   * The entry `write_event` builds before the extra keyword fields: timestamp, event type,
   * the writer's workflow id and status, then the optional fields that are given.
   */
  function StandardEntry(
    timestamp: string, eventType: string, workflowId: string, status: string,
    phaseId: Option<string>, agent: Option<string>, durationMs: Option<int>,
    error: Option<map<string, Value>>, context: Option<map<string, Value>>): (e: Entry)
    ensures {"timestamp", "event_type", "workflow_id", "status"} <= e.Keys <= StandardKeys
  {
    var entry := map["timestamp" := Str(timestamp), "event_type" := Str(eventType),
                     "workflow_id" := Str(workflowId), "status" := Str(status)];
    var withPhase := Put(entry, "phase_id", if Truthy(phaseId) then Some(Str(phaseId.value)) else None);
    var withAgent := Put(withPhase, "agent", if Truthy(agent) then Some(Str(agent.value)) else None);
    var withDuration := Put(withAgent, "duration_ms", if durationMs.Some? then Some(Num(durationMs.value)) else None);
    var withError := Put(withDuration, "error", if error.Some? && error.value != map[] then Some(Obj(error.value)) else None);
    Put(withError, "context", if context.Some? && context.value != map[] then Some(Obj(context.value)) else None)
  }

  /** Timestamp, event type, the writer's workflow id and status are always set. */
  lemma StandardEntryRequiredFields(
    timestamp: string, eventType: string, workflowId: string, status: string,
    phaseId: Option<string>, agent: Option<string>, durationMs: Option<int>,
    error: Option<map<string, Value>>, context: Option<map<string, Value>>)
    ensures Get(StandardEntry(timestamp, eventType, workflowId, status, phaseId, agent, durationMs, error, context), "timestamp") == Some(Str(timestamp))
    ensures Get(StandardEntry(timestamp, eventType, workflowId, status, phaseId, agent, durationMs, error, context), "event_type") == Some(Str(eventType))
    ensures Get(StandardEntry(timestamp, eventType, workflowId, status, phaseId, agent, durationMs, error, context), "workflow_id") == Some(Str(workflowId))
    ensures Get(StandardEntry(timestamp, eventType, workflowId, status, phaseId, agent, durationMs, error, context), "status") == Some(Str(status))
  {
  }

  /** Phase id, agent, error and context are set only when truthy; the duration whenever given, 0 included. */
  lemma StandardEntryOptionalFields(
    timestamp: string, eventType: string, workflowId: string, status: string,
    phaseId: Option<string>, agent: Option<string>, durationMs: Option<int>,
    error: Option<map<string, Value>>, context: Option<map<string, Value>>)
    ensures Get(StandardEntry(timestamp, eventType, workflowId, status, phaseId, agent, durationMs, error, context), "phase_id") == if Truthy(phaseId) then Some(Str(phaseId.value)) else None
    ensures Get(StandardEntry(timestamp, eventType, workflowId, status, phaseId, agent, durationMs, error, context), "agent") == if Truthy(agent) then Some(Str(agent.value)) else None
    ensures Get(StandardEntry(timestamp, eventType, workflowId, status, phaseId, agent, durationMs, error, context), "duration_ms") == if durationMs.Some? then Some(Num(durationMs.value)) else None
    ensures Get(StandardEntry(timestamp, eventType, workflowId, status, phaseId, agent, durationMs, error, context), "error") == if error.Some? && error.value != map[] then Some(Obj(error.value)) else None
    ensures Get(StandardEntry(timestamp, eventType, workflowId, status, phaseId, agent, durationMs, error, context), "context") == if context.Some? && context.value != map[] then Some(Obj(context.value)) else None
  {
  }

  /** No other key is set. */
  lemma StandardEntryKeys(
    timestamp: string, eventType: string, workflowId: string, status: string,
    phaseId: Option<string>, agent: Option<string>, durationMs: Option<int>,
    error: Option<map<string, Value>>, context: Option<map<string, Value>>)
    ensures StandardEntry(timestamp, eventType, workflowId, status, phaseId, agent, durationMs, error, context).Keys <= StandardKeys
  {
  }

  /** `write_event`'s entry: the extra keyword fields are merged last and override the standard ones. */
  function BuildEntry(
    timestamp: string, eventType: string, workflowId: string, status: string,
    phaseId: Option<string>, agent: Option<string>, durationMs: Option<int>,
    error: Option<map<string, Value>>, context: Option<map<string, Value>>,
    extra: map<string, Value>): (r: Entry)
    ensures forall k :: Get(r, k) == if k in extra then Some(extra[k]) else Get(StandardEntry(timestamp, eventType, workflowId, status, phaseId, agent, durationMs, error, context), k)
  {
    StandardEntry(timestamp, eventType, workflowId, status, phaseId, agent, durationMs, error, context) + extra
  }

  /** `entry[key] = v` when there is a value `v` to add. */
  function Put(e: Entry, key: string, v: Option<Value>): Entry
  {
    if v.Some? then e[key := v.value] else e
  }

  /** A filter on `key` accepts an entry when it is inactive or the entry holds exactly that string. */
  predicate FilterAccepts(e: Entry, key: string, f: Option<string>)
  {
    Truthy(f) ==> Get(e, key) == Some(Str(f.value))
  }

  predicate Matches(e: Entry, f: Filters)
  {
    FilterAccepts(e, "event_type", f.eventType)
    && FilterAccepts(e, "phase_id", f.phaseId)
    && FilterAccepts(e, "status", f.status)
  }

  const NoFilters: Filters := Filters(None, None, None)

  /** The parsable records of `lines` that pass the filters, in file order. */
  function Matching(lines: seq<Line>, f: Filters): seq<Entry>
  {
    if |lines| == 0 then []
    else
      var last := lines[|lines| - 1];
      Matching(lines[..|lines| - 1], f) + (if last.Record? && Matches(last.entry, f) then [last.entry] else [])
  }

  /** Whether `limit` is truthy, and then how many events it lets through (at least one). */
  predicate LimitActive(limit: Option<int>) { limit.Some? && limit.value != 0 }

  function LimitBound(limit: Option<int>): nat
    requires LimitActive(limit)
  {
    if limit.value >= 1 then limit.value else 1
  }

  /** What `read_events` returns for the given file content. */
  function ReadResult(lines: seq<Line>, f: Filters, limit: Option<int>): (r: seq<Entry>)
    ensures r <= Matching(lines, f)
    ensures !LimitActive(limit) ==> r == Matching(lines, f)
    ensures LimitActive(limit) ==> |r| == Min(|Matching(lines, f)|, LimitBound(limit))
  {
    var all := Matching(lines, f);
    if LimitActive(limit) && |all| > LimitBound(limit) then all[..LimitBound(limit)] else all
  }

  /** `xs` occurs in `ys` in the same order, possibly with other elements in between. */
  ghost predicate IsSubsequence<T>(xs: seq<T>, ys: seq<T>)
  {
    exists idx: seq<nat> ::
      && |idx| == |xs|
      && (forall i :: 0 <= i < |idx| ==> idx[i] < |ys| && ys[idx[i]] == xs[i])
      && (forall i, j :: 0 <= i < j < |idx| ==> idx[i] < idx[j])
  }

  /** The records of `lines`, in order. */
  function Parsed(lines: seq<Line>): seq<Entry>
  {
    if |lines| == 0 then []
    else Parsed(lines[..|lines| - 1]) + (if lines[|lines| - 1].Record? then [lines[|lines| - 1].entry] else [])
  }

  /** Every record `read_events` returns passes the filters. */
  lemma {:induction false} MatchingMatches(lines: seq<Line>, f: Filters)
    ensures forall e :: e in Matching(lines, f) ==> Matches(e, f)
  {
    if |lines| > 0 {
      MatchingMatches(lines[..|lines| - 1], f);
    }
  }

  /** Appending the same element to both sides, or to the longer side only, keeps a subsequence. */
  lemma SubsequenceAppend<T>(xs: seq<T>, ys: seq<T>, y: T)
    requires IsSubsequence(xs, ys)
    ensures IsSubsequence(xs, ys + [y])
    ensures IsSubsequence(xs + [y], ys + [y])
  {
    var idx: seq<nat> :| |idx| == |xs|
      && (forall i :: 0 <= i < |idx| ==> idx[i] < |ys| && ys[idx[i]] == xs[i])
      && (forall i, j :: 0 <= i < j < |idx| ==> idx[i] < idx[j]);
    var ys' := ys + [y];
    assert forall i :: 0 <= i < |idx| ==> idx[i] < |ys'| && ys'[idx[i]] == xs[i];
    var idx' := idx + [|ys|];
    assert forall i :: 0 <= i < |idx'| ==> idx'[i] < |ys'| && ys'[idx'[i]] == (xs + [y])[i];
  }

  /** The records `read_events` returns keep their file order. */
  lemma {:induction false} MatchingInOrder(lines: seq<Line>, f: Filters)
    ensures IsSubsequence(Matching(lines, f), Parsed(lines))
  {
    if |lines| == 0 {
      assert IsSubsequence<Entry>([], []) by {
        var idx: seq<nat> := [];
      }
    } else {
      var init := lines[..|lines| - 1];
      var last := lines[|lines| - 1];
      MatchingInOrder(init, f);
      if last.Record? {
        SubsequenceAppend(Matching(init, f), Parsed(init), last.entry);
      }
    }
  }

  /** No matching record is dropped: each occurs as often as in the file, and non-matching ones not at all. */
  lemma {:induction false} MatchingComplete(lines: seq<Line>, f: Filters)
    ensures forall e :: multiset(Matching(lines, f))[e] == if Matches(e, f) then multiset(Parsed(lines))[e] else 0
  {
    if |lines| > 0 {
      MatchingComplete(lines[..|lines| - 1], f);
    }
  }

  /** Without filters, every parsable line is returned, unparsable lines are skipped. */
  lemma {:induction false} NoFiltersReadsAll(lines: seq<Line>)
    ensures ReadResult(lines, NoFilters, None) == Parsed(lines)
  {
    if |lines| > 0 {
      NoFiltersReadsAll(lines[..|lines| - 1]);
    }
  }

  /** The matches among the first `i` lines come first among all matches. */
  lemma {:induction false} MatchingPrefix(lines: seq<Line>, f: Filters, i: nat)
    requires i <= |lines|
    ensures Matching(lines[..i], f) <= Matching(lines, f)
    decreases |lines| - i
  {
    if i < |lines| {
      var init := lines[..|lines| - 1];
      assert init[..i] == lines[..i];
      MatchingPrefix(init, f, i);
    } else {
      assert lines[..i] == lines;
    }
  }

  /** A truthy limit returns a prefix of the unlimited result, of length at most the limit. */
  lemma LimitIsPrefix(lines: seq<Line>, f: Filters, limit: Option<int>)
    ensures ReadResult(lines, f, limit) <= ReadResult(lines, f, None)
    ensures LimitActive(limit) ==>
              |ReadResult(lines, f, limit)| == Min(|Matching(lines, f)|, LimitBound(limit))
    ensures limit.Some? && limit.value >= 1 ==> |ReadResult(lines, f, limit)| <= limit.value
  {
  }

  /** Appending a record adds exactly that entry at the end of the unfiltered read. */
  lemma AppendThenRead(lines: seq<Line>, e: Entry, bytes: nat)
    ensures ReadResult(lines + [Record(e, bytes)], NoFilters, None) == ReadResult(lines, NoFilters, None) + [e]
  {
    var all := lines + [Record(e, bytes)];
    assert all[..|all| - 1] == lines;
    NoFiltersReadsAll(all);
    NoFiltersReadsAll(lines);
  }

  /** `event.get('event_type', 'unknown')` */
  function EventTypeOf(e: Entry): Value
  {
    if "event_type" in e then e["event_type"] else Str("unknown")
  }

  /** `counts.get(key, 0)` */
  function CountOf<K>(counts: map<K, nat>, key: K): nat
  {
    if key in counts then counts[key] else 0
  }

  /** One iteration of the statistics loop. */
  function Step(s: Stats, e: Entry): Stats
  {
    var t := EventTypeOf(e);
    var types := s.eventTypes[t := CountOf(s.eventTypes, t) + 1];
    var phases :=
      if "phase_id" in e then
        var p := e["phase_id"];
        var ps := if p in s.phases then s.phases[p] else PhaseStats(0, Get(e, "status"), Get(e, "agent"));
        s.phases[p := ps.(events := ps.events + 1)]
      else s.phases;
    Stats(
      s.totalEvents, types, phases,
      s.errors + (if Get(e, "status") == Some(Str("failed")) then 1 else 0),
      s.retries + (if Get(e, "event_type") == Some(Str("retry")) then 1 else 0))
  }

  /** The statistics after the loop has visited `events`, starting from a total of `total`. */
  function Tally(total: nat, events: seq<Entry>): Stats
  {
    if |events| == 0 then Stats(total, map[], map[], 0, 0)
    else Step(Tally(total, events[..|events| - 1]), events[|events| - 1])
  }

  /** One more visited event is one more `Step`. */
  lemma TallyNext(total: nat, events: seq<Entry>, i: nat)
    requires i < |events|
    ensures Tally(total, events[..i + 1]) == Step(Tally(total, events[..i]), events[i])
  {
    assert events[..i + 1][..i] == events[..i];
  }

  /** `get_workflow_stats` over the events read: the total, and the failed and retry counts. */
  function StatsOf(events: seq<Entry>): (s: Stats)
    ensures s.totalEvents == |events|
    ensures s.errors == CountWhere(events, "status", Str("failed"))
    ensures s.retries == CountWhere(events, "event_type", Str("retry"))
  {
    TallyCounters(|events|, events);
    Tally(|events|, events)
  }

  /** The sum of the counts in a counter dictionary. */
  ghost function MapSum<K>(m: map<K, nat>): nat
  {
    if m == map[] then 0
    else
      var k := PickKey(m);
      m[k] + MapSum(m - {k})
  }

  ghost function PickKey<K>(m: map<K, nat>): (k: K)
    requires m != map[]
    ensures k in m
  {
    var k :| k in m; k
  }

  /** The sum can be split at any key. */
  lemma {:induction false} MapSumRemove<K>(m: map<K, nat>, k: K)
    requires k in m
    ensures MapSum(m) == m[k] + MapSum(m - {k})
    decreases |m|
  {
    var j := PickKey(m);
    if j != k {
      assert |m - {j}| == |m| - 1;
      assert |m - {k}| == |m| - 1;
      MapSumRemove(m - {j}, k);
      MapSumRemove(m - {k}, j);
      assert (m - {j}) - {k} == (m - {k}) - {j};
    }
  }

  /** Counting one more event under any key raises the sum by one. */
  lemma CountOneMore<K>(m: map<K, nat>, k: K)
    ensures MapSum(m[k := CountOf(m, k) + 1]) == MapSum(m) + 1
  {
    var m' := m[k := CountOf(m, k) + 1];
    MapSumRemove(m', k);
    if k in m {
      MapSumRemove(m, k);
      assert m' - {k} == m - {k};
    } else {
      assert m' - {k} == m;
    }
  }

  /** The number of events whose (defaulted) event type is `t`. */
  function CountType(events: seq<Entry>, t: Value): nat
  {
    if |events| == 0 then 0
    else CountType(events[..|events| - 1], t) + (if EventTypeOf(events[|events| - 1]) == t then 1 else 0)
  }

  /** The number of events with `key` equal to `v`. */
  function CountWhere(events: seq<Entry>, key: string, v: Value): nat
  {
    if |events| == 0 then 0
    else CountWhere(events[..|events| - 1], key, v) + (if Get(events[|events| - 1], key) == Some(v) then 1 else 0)
  }

  /** The events that carry `phase_id` equal to `p`, in order. */
  function OfPhase(events: seq<Entry>, p: Value): seq<Entry>
  {
    if |events| == 0 then []
    else
      var e := events[|events| - 1];
      OfPhase(events[..|events| - 1], p) + (if "phase_id" in e && e["phase_id"] == p then [e] else [])
  }

  /** The total is fixed; errors count status "failed" and retries count event type "retry". */
  lemma {:induction false} TallyCounters(total: nat, events: seq<Entry>)
    ensures Tally(total, events).totalEvents == total
    ensures Tally(total, events).errors == CountWhere(events, "status", Str("failed"))
    ensures Tally(total, events).retries == CountWhere(events, "event_type", Str("retry"))
  {
    if |events| > 0 {
      TallyCounters(total, events[..|events| - 1]);
    }
  }

  /** The event-type counts add up to the number of events. */
  lemma {:induction false} TallyTypeSum(total: nat, events: seq<Entry>)
    ensures MapSum(Tally(total, events).eventTypes) == |events|
  {
    if |events| > 0 {
      var init := events[..|events| - 1];
      TallyTypeSum(total, init);
      CountOneMore(Tally(total, init).eventTypes, EventTypeOf(events[|events| - 1]));
    }
  }

  /** Each event type is counted exactly, and only types that occur have a count. */
  lemma {:induction false} TallyEventTypes(total: nat, events: seq<Entry>)
    ensures forall t :: t in Tally(total, events).eventTypes <==> CountType(events, t) > 0
    ensures forall t :: t in Tally(total, events).eventTypes ==> Tally(total, events).eventTypes[t] == CountType(events, t)
  {
    if |events| > 0 {
      var init := events[..|events| - 1];
      var last := EventTypeOf(events[|events| - 1]);
      TallyEventTypes(total, init);
      var before := Tally(total, init).eventTypes;
      var after := Tally(total, events).eventTypes;
      assert after == before[last := CountOf(before, last) + 1];
      forall t
        ensures (t in after <==> CountType(events, t) > 0)
        ensures t in after ==> after[t] == CountType(events, t)
      {
        assert CountType(events, t) == CountType(init, t) + (if last == t then 1 else 0);
      }
    }
  }

  /** Each phase counts its events and keeps the status and agent of its first event. */
  lemma {:induction false} TallyPhases(total: nat, events: seq<Entry>)
    ensures forall p :: p in Tally(total, events).phases <==> |OfPhase(events, p)| > 0
    ensures forall p :: p in Tally(total, events).phases ==>
              Tally(total, events).phases[p] ==
                PhaseStats(|OfPhase(events, p)|, Get(OfPhase(events, p)[0], "status"), Get(OfPhase(events, p)[0], "agent"))
  {
    if |events| > 0 {
      var init := events[..|events| - 1];
      TallyPhases(total, init);
      forall p | |OfPhase(events, p)| > 0
        ensures OfPhase(events, p)[0] == if |OfPhase(init, p)| > 0 then OfPhase(init, p)[0] else events[|events| - 1]
      {
      }
    }
  }

  /** The counting loop of `get_workflow_stats` over the events read. */
  method CountEvents(events: seq<Entry>) returns (stats: Stats)
    ensures stats == StatsOf(events)
  {
    stats := Stats(|events|, map[], map[], 0, 0);
    for i := 0 to |events|
      invariant stats == Tally(|events|, events[..i])
    {
      TallyNext(|events|, events, i);
      ghost var before := stats;
      var event := events[i];
      var eventType := EventTypeOf(event);
      var eventTypes := stats.eventTypes[eventType := CountOf(stats.eventTypes, eventType) + 1];
      var phases := stats.phases;
      if "phase_id" in event {
        var phaseId := event["phase_id"];
        var phase := if phaseId in phases then phases[phaseId]
                     else PhaseStats(0, Get(event, "status"), Get(event, "agent"));
        phases := phases[phaseId := phase.(events := phase.events + 1)];
      }
      var errors := stats.errors;
      if Get(event, "status") == Some(Str("failed")) {
        errors := errors + 1;
      }
      var retries := stats.retries;
      if Get(event, "event_type") == Some(Str("retry")) {
        retries := retries + 1;
      }
      ghost var next := Step(before, event);
      assert eventTypes == next.eventTypes;
      assert phases == next.phases;
      assert errors == next.errors && retries == next.retries;
      stats := Stats(stats.totalEvents, eventTypes, phases, errors, retries);
    }
    assert events[..|events|] == events;
  }

  /** An archive or the live file is deleted by `cleanup_old_logs` when modified before the cutoff. */
  function Retained(archives: map<int, seq<Line>>, cutoff: int): map<int, seq<Line>>
  {
    map t | t in archives && t >= cutoff :: archives[t]
  }

  class Writer {
    const workflowId: string
    const maxSizeBytes: int
    const retentionDays: int

    /** The live file `execution_<workflow_id>.jsonl`. */
    var live: seq<Line>
    var liveExists: bool
    var liveMtime: int
    /** Rotated files `execution_<workflow_id>.<timestamp>.jsonl.gz`, keyed by rotation second. */
    var archives: map<int, seq<Line>>

    /** A missing live file has no lines. */
    ghost predicate Valid()
      reads this
    {
      !liveExists ==> live == []
    }

    /** The writer over the current state of the log directory. */
    constructor (
      workflowId: string, maxSizeMb: int, retentionDays: int,
      live: seq<Line>, liveExists: bool, liveMtime: int, archives: map<int, seq<Line>>)
      requires !liveExists ==> live == []
      ensures Valid()
      ensures this.workflowId == workflowId && this.retentionDays == retentionDays
      ensures maxSizeBytes == maxSizeMb * BYTES_PER_MB
      ensures this.live == live && this.liveExists == liveExists && this.liveMtime == liveMtime
      ensures this.archives == archives
    {
      this.workflowId := workflowId;
      this.maxSizeBytes := maxSizeMb * BYTES_PER_MB;
      this.retentionDays := retentionDays;
      this.live := live;
      this.liveExists := liveExists;
      this.liveMtime := liveMtime;
      this.archives := archives;
    }

    /** The lines `read_events` sees: none when the live file is missing. */
    function Current(): seq<Line>
      reads this
    {
      if liveExists then live else []
    }

    /**
     * `write_event` at time `now`; `bytes` is the length of the entry's serialized line.
     * The entry is appended to the live file, which is then rotated away exactly when
     * its size has reached the limit.
     */
    method WriteEvent(
      now: int, timestamp: string, eventType: string, status: string,
      phaseId: Option<string>, agent: Option<string>, durationMs: Option<int>,
      error: Option<map<string, Value>>, context: Option<map<string, Value>>,
      extra: map<string, Value>, bytes: nat)
      returns (entry: Entry)
      requires Valid()
      modifies this
      ensures Valid()
      ensures entry == BuildEntry(timestamp, eventType, workflowId, status, phaseId, agent,
                                  durationMs, error, context, extra)
      ensures var written := old(Current()) + [Record(entry, bytes)];
              if Size(written) >= maxSizeBytes then
                && archives == old(archives)[now := written]
                && !liveExists && live == []
              else
                && archives == old(archives)
                && liveExists && live == written && liveMtime == now
    {
      entry := BuildEntry(timestamp, eventType, workflowId, status, phaseId, agent,
                          durationMs, error, context, extra);
      AppendEntry(now, entry, bytes);
      CheckRotation(now);
    }

    /** `_append_entry`: creates the live file if needed and appends one line. */
    method AppendEntry(now: int, entry: Entry, bytes: nat)
      requires Valid()
      modifies this
      ensures Valid()
      ensures liveExists && live == old(Current()) + [Record(entry, bytes)]
      ensures liveMtime == now && archives == old(archives)
    {
      live := live + [Record(entry, bytes)];
      liveExists := true;
      liveMtime := now;
    }

    /** `_check_rotation`: rotates when the live file exists and has reached the size limit. */
    method CheckRotation(now: int)
      requires Valid()
      modifies this
      ensures Valid()
      ensures if old(liveExists) && Size(old(live)) >= maxSizeBytes then
                archives == old(archives)[now := old(live)] && !liveExists && live == []
              else
                archives == old(archives) && live == old(live) && liveExists == old(liveExists)
                && liveMtime == old(liveMtime)
    {
      if !liveExists {
        return;
      }
      if Size(live) >= maxSizeBytes {
        RotateLog(now);
      }
    }

    /** `_rotate_log`: the whole live content goes to the archive of this second; the live file is deleted. */
    method RotateLog(now: int)
      requires Valid()
      modifies this
      ensures Valid()
      ensures old(liveExists) ==> archives == old(archives)[now := old(live)] && !liveExists && live == []
      ensures !old(liveExists) ==> archives == old(archives) && live == old(live) && !liveExists
      ensures Current() == []
    {
      if !liveExists {
        return;
      }
      archives := archives[now := live];
      live := [];
      liveExists := false;
    }

    /** `read_events`: the matching records in file order, stopping once the limit is reached. */
    method ReadEvents(f: Filters, limit: Option<int>) returns (events: seq<Entry>)
      ensures events == ReadResult(Current(), f, limit)
    {
      if !liveExists {
        return [];
      }
      events := [];
      var i := 0;
      while i < |live|
        invariant 0 <= i <= |live|
        invariant events == Matching(live[..i], f)
        invariant LimitActive(limit) ==> |events| < LimitBound(limit)
      {
        assert live[..i + 1][..i] == live[..i];
        var line := live[i];
        if line.Record? {
          var entry := line.entry;
          if Matches(entry, f) {
            events := events + [entry];
            if LimitActive(limit) && |events| >= limit.value {
              MatchingPrefix(live, f, i + 1);
              return;
            }
          }
        }
        i := i + 1;
      }
      assert live[..i] == live;
    }

    /** `get_workflow_stats`: statistics over every parsable record of the live file. */
    method GetWorkflowStats() returns (stats: Stats)
      ensures stats == StatsOf(ReadResult(Current(), NoFilters, None))
    {
      var events := ReadEvents(NoFilters, None);
      stats := CountEvents(events);
    }

    /** `cleanup_old_logs` at time `now`: deletes every log file modified before the retention cutoff. */
    method CleanupOldLogs(now: int)
      requires Valid()
      modifies this
      ensures Valid()
      ensures var cutoff := now - retentionDays * SECONDS_PER_DAY;
              && archives == Retained(old(archives), cutoff)
              && (old(liveExists) && old(liveMtime) < cutoff ==> !liveExists && live == [])
              && (!(old(liveExists) && old(liveMtime) < cutoff) ==> liveExists == old(liveExists) && live == old(live))
    {
      var cutoff := now - retentionDays * SECONDS_PER_DAY;
      if liveExists && liveMtime < cutoff {
        live := [];
        liveExists := false;
      }
      var pending := archives.Keys;
      ghost var original := archives;
      while pending != {}
        invariant archives == map stamp | stamp in original && (stamp in pending || stamp >= cutoff) :: original[stamp]
        invariant Valid() && live == (if old(liveExists) && old(liveMtime) < cutoff then [] else old(live))
        invariant liveExists == (old(liveExists) && !(old(liveMtime) < cutoff))
        decreases pending
      {
        var stamp := AnyOf(pending);
        if stamp < cutoff {
          archives := archives - {stamp};
        }
        pending := pending - {stamp};
      }
    }
  }
}
