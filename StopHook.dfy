/**
 * The bookkeeping half of the stop hook: the turn duration it formats for the status line, the
 * ten-entry duration history it keeps for the sparkline, and the one-shot workflow-continuation
 * file that makes it block the stop once.
 */
module StopHook {
  import opened Basics
  import opened Strings

  /** The history keeps this many most recent durations. */
  const MAX_ENTRIES: nat := 10

  // ---------------------------------------------------------------------------------------------
  // format_duration

  /** `int(x)`: truncation toward zero. */
  function Truncate(x: real): (r: int)
    ensures x >= 0.0 ==> 0 <= r && r as real <= x < r as real + 1.0
  {
    if x >= 0.0 then x.Floor else -((-x).Floor)
  }

  /** `f"{n}{unit}"` */
  function Part(n: nat, unit: char): string
  {
    NatToString(n) + [unit]
  }

  /** The text for a whole number of seconds: `45s`, `1m`, `1m 23s`, `2h`, `2h 5m`. */
  function FormatSeconds(s: int): string
  {
    if s < 60 then IntToString(s) + "s"
    else if s < 3600 then
      var minutes := s / 60;
      var remaining := s % 60;
      if remaining == 0 then Part(minutes, 'm')
      else Part(minutes, 'm') + " " + Part(remaining, 's')
    else
      var hours := s / 3600;
      var minutes := (s % 3600) / 60;
      if minutes == 0 then Part(hours, 'h')
      else Part(hours, 'h') + " " + Part(minutes, 'm')
  }

  /**
   * `format_duration`: the text for the whole seconds of a duration. For a non-negative duration
   * it reads back as those seconds below an hour, and as them cut to whole minutes from an hour on.
   */
  function FormatDuration(seconds: real): (text: string)
    ensures seconds >= 0.0 ==>
              var s := Truncate(seconds);
              ParseFormatted(text) == Some(if s < 3600 then s else s - s % 60)
  {
    var s := Truncate(seconds);
    if s >= 0 then
      FormatSecondsRoundTrip(s);
      FormatSeconds(s)
    else
      FormatSeconds(s)
  }

  /** The seconds a `<digits><unit>` part of a formatted duration stands for. */
  function PartValue(part: string): Option<int>
  {
    if |part| < 2 || !AllDigits(part[..|part| - 1]) then None
    else
      var n := ParseDigits(part[..|part| - 1]);
      var unit := part[|part| - 1];
      if unit == 's' then Some(n)
      else if unit == 'm' then Some(60 * n)
      else if unit == 'h' then Some(3600 * n)
      else None
  }

  /** Reads a formatted duration back as seconds: one part, or two parts separated by a space. */
  function ParseFormatted(text: string): Option<int>
  {
    var parts := Split(text, ' ');
    if |parts| == 1 then PartValue(parts[0])
    else if |parts| == 2 && PartValue(parts[0]).Some? && PartValue(parts[1]).Some? then
      Some(PartValue(parts[0]).value + PartValue(parts[1]).value)
    else None
  }

  lemma DigitsHaveNoSpace(s: string)
    requires AllDigits(s)
    ensures ' ' !in s
  {
  }

  /** One part reads back as its number times its unit. */
  lemma PartOf(n: nat, unit: char)
    requires unit == 's' || unit == 'm' || unit == 'h'
    ensures ' ' !in Part(n, unit)
    ensures PartValue(Part(n, unit)) ==
              Some(if unit == 's' then n else if unit == 'm' then 60 * n else 3600 * n)
  {
    var part := Part(n, unit);
    assert part[..|part| - 1] == NatToString(n);
    DigitsHaveNoSpace(NatToString(n));
    ParseNatToString(n);
  }

  /** A single part is not split. */
  lemma OnePart(n: nat, unit: char)
    requires unit == 's' || unit == 'm' || unit == 'h'
    ensures ParseFormatted(Part(n, unit)) ==
              Some(if unit == 's' then n else if unit == 'm' then 60 * n else 3600 * n)
  {
    PartOf(n, unit);
    SplitNoSeparator(Part(n, unit), ' ');
  }

  /** Two parts split at the space and add up. */
  lemma TwoParts(a: string, b: string)
    requires ' ' !in a && ' ' !in b
    requires PartValue(a).Some? && PartValue(b).Some?
    ensures ParseFormatted(a + " " + b) == Some(PartValue(a).value + PartValue(b).value)
  {
    assert a + " " + b == a + [' '] + b;
    SplitAtFirst(a, b, ' ');
    SplitNoSeparator(b, ' ');
  }

  lemma RoundTripMinutes(s: nat)
    requires 60 <= s < 3600
    ensures ParseFormatted(FormatSeconds(s)) == Some(s)
  {
    OnePart(s / 60, 'm');
    if s % 60 != 0 {
      PartOf(s / 60, 'm');
      PartOf(s % 60, 's');
      TwoParts(Part(s / 60, 'm'), Part(s % 60, 's'));
    }
  }

  lemma RoundTripHours(s: nat)
    requires 3600 <= s
    ensures ParseFormatted(FormatSeconds(s)) == Some(s - s % 60)
  {
    var minutes := (s % 3600) / 60;
    assert s % 3600 == 60 * minutes + s % 60 by {
      assert s == 3600 * (s / 3600) + s % 3600;
      assert s == 60 * (s / 60) + s % 60;
    }
    OnePart(s / 3600, 'h');
    if minutes != 0 {
      PartOf(s / 3600, 'h');
      PartOf(minutes, 'm');
      TwoParts(Part(s / 3600, 'h'), Part(minutes, 'm'));
    }
  }

  /** Below an hour the text keeps every second; from an hour on it keeps whole minutes. */
  lemma FormatSecondsRoundTrip(s: nat)
    ensures ParseFormatted(FormatSeconds(s)) == Some(if s < 3600 then s else s - s % 60)
  {
    if s < 60 {
      OnePart(s, 's');
      assert FormatSeconds(s) == Part(s, 's');
    } else if s < 3600 {
      RoundTripMinutes(s);
    } else {
      RoundTripHours(s);
    }
  }

  // ---------------------------------------------------------------------------------------------
  // The duration history

  /** An entry of the stored `durations` list. JSON booleans pass Python's `isinstance(d, int | float)`. */
  datatype Item = Number(x: real) | Flag(b: bool) | Other

  /**
   * The `durations` member of the history object: missing, a list, a value whose iteration yields
   * no numbers (a string or an object), or a value that cannot be iterated (`null`, a number or a
   * boolean), on which the list comprehension raises `TypeError`.
   */
  datatype Durations = Missing | List(items: seq<Item>) | NoNumbers | NotIterable

  /**
   * What `turn_durations.json` holds: missing, not valid JSON (or not UTF-8), valid JSON that is
   * not an object (on which `.get` raises `AttributeError`), or an object.
   */
  datatype HistoryFile = NoHistory | CorruptHistory | NotObject | History(durations: Durations)

  /** `[float(d) for d in durations if isinstance(d, int | float)]` */
  function Numbers(items: seq<Item>): seq<real>
  {
    if |items| == 0 then []
    else
      var head := items[0];
      (if head.Number? then [head.x] else if head.Flag? then [if head.b then 1.0 else 0.0] else [])
      + Numbers(items[1..])
  }

  /**
   * The list the history starts from, `None` when reading it raises an exception that
   * `append_duration_to_history` does not catch (it catches only decoding errors and `OSError`).
   */
  function Loaded(file: HistoryFile): (r: Option<seq<real>>)
    ensures r.None? <==> file.NotObject? || (file.History? && file.durations.NotIterable?)
    ensures file.History? && file.durations.List? ==> r == Some(Numbers(file.durations.items))
  {
    match file
    case NoHistory => Some([])
    case CorruptHistory => Some([])
    case NotObject => None
    case History(durations) =>
      match durations
      case Missing => Some([])
      case List(items) => Some(Numbers(items))
      case NoNumbers => Some([])
      case NotIterable => None
  }

  /** Whether recording a turn that started at `start` and ends at `now` raises while reading the history. */
  predicate RecordRaises(start: StartFile, history: HistoryFile, now: real)
  {
    start.Start? && now - start.at >= 0.0 && Loaded(history).None?
  }

  /** `durations[-MAX_ENTRIES:]` */
  function Recent(xs: seq<real>): (r: seq<real>)
    ensures |r| == Min(|xs|, MAX_ENTRIES)
    ensures forall i :: 0 <= i < |r| ==> r[i] == xs[|xs| - |r| + i]
  {
    if |xs| <= MAX_ENTRIES then xs else xs[|xs| - MAX_ENTRIES..]
  }

  function AsItems(xs: seq<real>): (items: seq<Item>)
    ensures |items| == |xs| && forall i :: 0 <= i < |xs| ==> items[i] == Number(xs[i])
  {
    seq(|xs|, i requires 0 <= i < |xs| => Number(xs[i]))
  }

  /** The written list reads back as itself. */
  lemma {:induction false} NumbersAsItems(xs: seq<real>)
    ensures Numbers(AsItems(xs)) == xs
    decreases |xs|
  {
    if |xs| > 0 {
      NumbersAsItems(xs[1..]);
      assert AsItems(xs)[1..] == AsItems(xs[1..]);
    }
  }

  /** A history the hook wrote itself loads back as its durations, so it never makes a later read raise. */
  lemma WrittenHistoryLoads(xs: seq<real>)
    ensures Loaded(History(List(AsItems(xs)))) == Some(xs)
  {
    NumbersAsItems(xs);
  }

  /** The window of the newest entries: updating it entry by entry keeps the newest of everything appended. */
  lemma RecentWindow(xs: seq<real>, d: real)
    ensures Recent(Recent(xs) + [d]) == Recent(xs + [d])
    ensures |Recent(xs + [d])| <= MAX_ENTRIES
    ensures Recent(xs + [d])[|Recent(xs + [d])| - 1] == d
  {
    var r := Recent(xs) + [d];
    var lhs := Recent(r);
    var rhs := Recent(xs + [d]);
    assert |lhs| == |rhs|;
    forall i | 0 <= i < |lhs|
      ensures lhs[i] == rhs[i]
    {
    }
  }

  // ---------------------------------------------------------------------------------------------
  // The state directory

  /** What `turn_start_timestamp.txt` holds. */
  datatype StartFile = NoStart | BadStart | Start(at: real)

  /** What `workflow_continuation_needed.json` is. */
  datatype ContinuationFile = NoContinuation | ValidContinuation | CorruptContinuation

  /** The list comprehension that keeps the numeric entries as floats. */
  method CollectNumbers(items: seq<Item>) returns (durations: seq<real>)
    ensures durations == Numbers(items)
  {
    durations := [];
    var i := 0;
    while i < |items|
      invariant 0 <= i <= |items|
      invariant durations + Numbers(items[i..]) == Numbers(items)
    {
      assert items[i..][1..] == items[i + 1..];
      if items[i].Number? {
        durations := durations + [items[i].x];
      } else if items[i].Flag? {
        durations := durations + [if items[i].b then 1.0 else 0.0];
      }
      i := i + 1;
    }
    assert items[i..] == [];
  }

  class StateDir {
    var start: StartFile
    /** `last_turn_duration.txt` */
    var lastDuration: Option<string>
    var history: HistoryFile
    var continuation: ContinuationFile

    constructor (start: StartFile, lastDuration: Option<string>, history: HistoryFile, continuation: ContinuationFile)
      ensures this.start == start && this.lastDuration == lastDuration
      ensures this.history == history && this.continuation == continuation
    {
      this.start := start;
      this.lastDuration := lastDuration;
      this.history := history;
      this.continuation := continuation;
    }

    /**
     * `append_duration_to_history`: the newest `MAX_ENTRIES` of the stored numbers followed by `d`.
     * `ok` is false when reading the old history raised; the file is then left as it was.
     */
    method AppendDurationToHistory(d: real) returns (ok: bool)
      modifies this
      ensures ok <==> Loaded(old(history)).Some?
      ensures ok ==> history == History(List(AsItems(Recent(Loaded(old(history)).value + [d]))))
      ensures !ok ==> history == old(history)
      ensures start == old(start) && lastDuration == old(lastDuration) && continuation == old(continuation)
    {
      if history.NotObject? || (history.History? && history.durations.NotIterable?) {
        return false;
      }
      var durations: seq<real> := [];
      if history.History? && history.durations.List? {
        durations := CollectNumbers(history.durations.items);
      }
      durations := durations + [d];
      if |durations| > MAX_ENTRIES {
        durations := durations[|durations| - MAX_ENTRIES..];
      }
      history := History(List(AsItems(durations)));
      ok := true;
    }

    /**
     * `calculate_and_record_turn_duration` at clock reading `now`: with a readable start time and a
     * non-negative duration, writes the formatted duration, appends it to the history and removes
     * the start file; otherwise changes nothing. `ok` is false when the history read raised: the
     * formatted duration is already written, but the history and the start file are left as they were.
     */
    method CalculateAndRecordTurnDuration(now: real) returns (ok: bool)
      modifies this
      ensures ok <==> !RecordRaises(old(start), old(history), now)
      ensures continuation == old(continuation)
      ensures old(start).Start? && now - old(start).at >= 0.0 ==>
                var d := now - old(start).at;
                && lastDuration == Some(FormatDuration(d))
                && (ok ==> history == History(List(AsItems(Recent(Loaded(old(history)).value + [d])))) && start == NoStart)
                && (!ok ==> history == old(history) && start == old(start))
      ensures !(old(start).Start? && now - old(start).at >= 0.0) ==>
                start == old(start) && lastDuration == old(lastDuration) && history == old(history)
    {
      if !start.Start? {
        return true;
      }
      var duration := now - start.at;
      if duration < 0.0 {
        return true;
      }
      lastDuration := Some(FormatDuration(duration));
      ok := AppendDurationToHistory(duration);
      if !ok {
        return;
      }
      start := NoStart;
    }

    /**
     * `check_workflow_continuation`: blocks the stop exactly when a readable continuation file
     * exists, and removes the file whenever there is one, so it blocks at most once.
     */
    method CheckWorkflowContinuation() returns (block: bool)
      modifies this
      ensures block <==> old(continuation) == ValidContinuation
      ensures continuation == NoContinuation
      ensures start == old(start) && lastDuration == old(lastDuration) && history == old(history)
    {
      if continuation == NoContinuation {
        return false;
      }
      if continuation == ValidContinuation {
        continuation := NoContinuation;
        return true;
      }
      continuation := NoContinuation;
      return false;
    }

    /**
     * The stop hook's bookkeeping at `now`: duration first, then the continuation check, exiting 0.
     * When the history read raises, the exception ends the hook with exit 1 before the continuation
     * check, which then neither blocks nor removes the continuation file.
     */
    method RunStopHook(now: real) returns (code: int, block: bool)
      modifies this
      ensures RecordRaises(old(start), old(history), now) ==>
                code == 1 && !block && continuation == old(continuation)
      ensures !RecordRaises(old(start), old(history), now) ==>
                code == 0 && (block <==> old(continuation) == ValidContinuation) && continuation == NoContinuation
    {
      var ok := CalculateAndRecordTurnDuration(now);
      if !ok {
        return 1, false;
      }
      block := CheckWorkflowContinuation();
      code := 0;
    }
  }
}
