/**
 * The retry budget manager: one retry record per phase id, kept in the
 * `retries` dictionary of the retry-budget document. Every operation works
 * on that dictionary; reading and writing the document (locks, fsync,
 * atomic rename) is treated as atomic and is not modelled.
 * Time is a whole number of seconds; delays are real seconds.
 */
module RetryManager {
  import opened Basics

  const DEFAULT_MAX_ATTEMPTS: int := 5
  const DEFAULT_BACKOFF_STRATEGY: string := "exponential"
  const DEFAULT_BACKOFF_BASE: real := 1.0
  const DEFAULT_BACKOFF_MAX: real := 16.0
  const DEFAULT_MAX_AGE_HOURS: int := 24

  /** `attempt_count` starts at 1 and only grows. */
  type AttemptCount = n: int | n >= 1 witness 1

  /** One entry of `error_history`; optional keys are `None` when absent. */
  datatype ErrorEvent = ErrorEvent(
    timestamp: int,
    attemptNumber: int,
    errorType: string,
    errorMessage: string,
    exitCode: Option<int>,
    durationMs: Option<int>,
    stackTrace: Option<string>,
    context: Option<map<string, string>>)

  /** The arguments of one `record_failure` call besides the phase id. */
  datatype Failure = Failure(
    at: int,
    message: string,
    kind: string,
    exitCode: Option<int>,
    durationMs: Option<int>,
    stackTrace: Option<string>,
    context: Option<map<string, string>>)

  /** The retry record of one phase. `None` timestamps are keys that are absent or null. */
  datatype RetryState = RetryState(
    phaseId: string,
    workflowId: string,
    agent: string,
    attemptCount: AttemptCount,
    maxAttempts: int,
    strategy: string,
    baseSeconds: real,
    maxSeconds: real,
    errorHistory: seq<ErrorEvent>,
    firstFailureAt: Option<int>,
    lastFailureAt: Option<int>,
    nextRetryAt: Option<real>,
    budgetExhausted: bool)

  /** The answer of `can_retry`: whether to proceed, and how long to wait (`None` once exhausted). */
  datatype RetryDecision = RetryDecision(allowed: bool, waitSeconds: Option<real>)

  /** Python's `x or default` for an optional argument: `None` and `0` give the default. */
  function IntOr(x: Option<int>, default: int): int
  {
    if x.None? || x.value == 0 then default else x.value
  }

  function StringOr(x: Option<string>, default: string): string
  {
    if x.None? || x.value == "" then default else x.value
  }

  function RealOr(x: Option<real>, default: real): real
  {
    if x.None? || x.value == 0.0 then default else x.value
  }

  function RealMin(a: real, b: real): real { if a <= b then a else b }

  /** `math.pow(2, k)` */
  function Pow2(k: nat): (r: real)
    ensures r >= 1.0
  {
    if k == 0 then 1.0 else 2.0 * Pow2(k - 1)
  }

  /** `base * factor`, kept as one term so that equal factors give equal delays. */
  function Scale(base: real, factor: real): real { base * factor }

  /**
   * `_calculate_backoff`: the delay for a record whose attempt count is `attemptCount`. Every
   * strategy but `constant` waits at least the base (when that is under the cap) and at most the cap.
   */
  function Delay(strategy: string, base: real, maxDelay: real, attemptCount: AttemptCount): (d: real)
    ensures strategy != "constant" ==> d <= maxDelay
    ensures strategy != "constant" && base >= 0.0 ==> d >= RealMin(base, maxDelay)
    ensures strategy == "constant" ==> d == base
  {
    var attempt := attemptCount - 1;
    if strategy == "exponential" then RealMin(Scale(base, Pow2(attempt)), maxDelay)
    else if strategy == "linear" then RealMin(Scale(base, (attempt + 1) as real), maxDelay)
    else if strategy == "constant" then base
    else RealMin(Scale(base, Pow2(attempt)), maxDelay)
  }

  function Backoff(rs: RetryState): real
  {
    Delay(rs.strategy, rs.baseSeconds, rs.maxSeconds, rs.attemptCount)
  }

  /** Every strategy except `constant` is capped at the maximum delay; `constant` is not. */
  lemma DelayBounds(strategy: string, base: real, maxDelay: real, n: AttemptCount)
    ensures strategy != "constant" ==> Delay(strategy, base, maxDelay, n) <= maxDelay
    ensures strategy == "constant" ==> Delay(strategy, base, maxDelay, n) == base
    ensures strategy !in {"exponential", "linear", "constant"} ==>
              Delay(strategy, base, maxDelay, n) == Delay("exponential", base, maxDelay, n)
  {
  }

  lemma {:induction false} Pow2Monotone(i: nat, j: nat)
    requires i <= j
    ensures Pow2(i) <= Pow2(j)
    decreases j - i
  {
    if i < j {
      Pow2Monotone(i, j - 1);
    }
  }

  lemma ScaleMonotone(base: real, x: real, y: real)
    requires base >= 0.0 && x <= y
    ensures Scale(base, x) <= Scale(base, y)
  {
  }

  /** The uncapped exponential delay grows with the attempt number. */
  lemma ExponentialMonotone(base: real, maxDelay: real, i: nat, j: nat)
    requires base >= 0.0 && i <= j
    ensures RealMin(Scale(base, Pow2(i)), maxDelay) <= RealMin(Scale(base, Pow2(j)), maxDelay)
  {
    Pow2Monotone(i, j);
    ScaleMonotone(base, Pow2(i), Pow2(j));
  }

  /** With a non-negative base, exponential and linear delays never decrease as attempts grow. */
  lemma DelayMonotone(strategy: string, base: real, maxDelay: real, n: AttemptCount, m: AttemptCount)
    requires base >= 0.0 && n <= m
    ensures Delay(strategy, base, maxDelay, n) <= Delay(strategy, base, maxDelay, m)
  {
    if strategy == "linear" {
      ScaleMonotone(base, n as real, m as real);
    } else if strategy != "constant" {
      ExponentialMonotone(base, maxDelay, n - 1, m - 1);
    }
  }

  /** Below the cap, each further attempt doubles the exponential delay. */
  lemma ExponentialDoubles(base: real, maxDelay: real, n: AttemptCount)
    requires base >= 0.0 && Scale(base, Pow2(n)) <= maxDelay
    ensures Delay("exponential", base, maxDelay, n + 1) == 2.0 * Delay("exponential", base, maxDelay, n)
  {
    assert Pow2(n) == 2.0 * Pow2(n - 1);
    ScaleMonotone(base, Pow2(n - 1), Pow2(n));
  }

  /** Below the cap, each further attempt adds one base to the linear delay. */
  lemma LinearAddsBase(base: real, maxDelay: real, n: AttemptCount)
    requires base >= 0.0 && Scale(base, (n + 1) as real) <= maxDelay
    ensures Delay("linear", base, maxDelay, n + 1) == Delay("linear", base, maxDelay, n) + base
  {
    ScaleMonotone(base, n as real, (n + 1) as real);
  }

  /** `init_retry`'s record: attempt 1, no history, falsy settings replaced by the defaults. */
  function NewRetryState(
    phaseId: string, workflowId: string, agent: string,
    maxAttempts: Option<int>, strategy: Option<string>, base: Option<real>, maxDelay: Option<real>): (rs: RetryState)
    ensures rs.phaseId == phaseId && rs.attemptCount == 1 && rs.errorHistory == [] && !rs.budgetExhausted
    ensures rs.firstFailureAt.None? && rs.lastFailureAt.None? && rs.nextRetryAt.None?
    ensures rs.maxAttempts != 0 && rs.strategy != "" && rs.baseSeconds != 0.0 && rs.maxSeconds != 0.0
    ensures rs.workflowId == workflowId && rs.agent == agent
    ensures rs.maxAttempts == (if maxAttempts.Some? && maxAttempts.value != 0 then maxAttempts.value else DEFAULT_MAX_ATTEMPTS)
    ensures rs.strategy == (if strategy.Some? && strategy.value != "" then strategy.value else DEFAULT_BACKOFF_STRATEGY)
    ensures rs.baseSeconds == (if base.Some? && base.value != 0.0 then base.value else DEFAULT_BACKOFF_BASE)
    ensures rs.maxSeconds == (if maxDelay.Some? && maxDelay.value != 0.0 then maxDelay.value else DEFAULT_BACKOFF_MAX)
  {
    RetryState(
      phaseId, workflowId, agent, 1,
      IntOr(maxAttempts, DEFAULT_MAX_ATTEMPTS),
      StringOr(strategy, DEFAULT_BACKOFF_STRATEGY),
      RealOr(base, DEFAULT_BACKOFF_BASE),
      RealOr(maxDelay, DEFAULT_BACKOFF_MAX),
      [], None, None, None, false)
  }

  /** The error event `record_failure` appends: numbered with the count before the increment. */
  function EventOf(rs: RetryState, f: Failure): ErrorEvent
  {
    ErrorEvent(
      f.at, rs.attemptCount, f.kind, f.message, f.exitCode, f.durationMs,
      if f.stackTrace.Some? && f.stackTrace.value != "" then f.stackTrace else None,
      if f.context.Some? && |f.context.value| > 0 then f.context else None)
  }

  /** The record after `record_failure`: the next-retry time uses the already incremented count. */
  function AfterFailure(rs: RetryState, f: Failure): (r: RetryState)
    ensures r.errorHistory == rs.errorHistory + [EventOf(rs, f)]
    ensures r.errorHistory[|rs.errorHistory|].attemptNumber == rs.attemptCount
    ensures r.attemptCount == rs.attemptCount + 1
    ensures r.lastFailureAt == Some(f.at)
    ensures r.firstFailureAt == if rs.firstFailureAt.Some? then rs.firstFailureAt else Some(f.at)
    ensures r.attemptCount > r.maxAttempts ==> r.budgetExhausted && r.nextRetryAt.None?
    ensures r.attemptCount <= r.maxAttempts ==>
              r.budgetExhausted == rs.budgetExhausted && r.nextRetryAt == Some(f.at as real + Backoff(r))
    ensures r.(errorHistory := rs.errorHistory, attemptCount := rs.attemptCount, lastFailureAt := rs.lastFailureAt,
               firstFailureAt := rs.firstFailureAt, nextRetryAt := rs.nextRetryAt, budgetExhausted := rs.budgetExhausted) == rs
  {
    var counted := rs.(
      errorHistory := rs.errorHistory + [EventOf(rs, f)],
      lastFailureAt := Some(f.at),
      firstFailureAt := if rs.firstFailureAt.Some? then rs.firstFailureAt else Some(f.at),
      attemptCount := rs.attemptCount + 1);
    if counted.attemptCount <= counted.maxAttempts then
      counted.(nextRetryAt := Some(f.at as real + Backoff(counted)))
    else
      counted.(budgetExhausted := true, nextRetryAt := None)
  }

  /**
   * `can_retry` on the record found for a phase (`None`: no record), as its documentation and its
   * callers intend it: the recorded retry time is compared with the current time.
   */
  function CanRetryDecision(entry: Option<RetryState>, now: int): (d: RetryDecision)
    ensures d.allowed ==> d.waitSeconds == Some(0.0)
    ensures !d.allowed && d.waitSeconds.None? <==>
              entry.Some? && (entry.value.budgetExhausted || entry.value.attemptCount > entry.value.maxAttempts)
    ensures !d.allowed && d.waitSeconds.Some? ==>
              d.waitSeconds.value > 0.0 && entry.Some? && entry.value.nextRetryAt == Some(now as real + d.waitSeconds.value)
    ensures entry.None? ==> d.allowed
    ensures entry.Some? && !entry.value.budgetExhausted && entry.value.attemptCount <= entry.value.maxAttempts ==>
              (d.allowed <==> !(entry.value.nextRetryAt.Some? && (now as real) < entry.value.nextRetryAt.value))
  {
    match entry
    case None => RetryDecision(true, Some(0.0))
    case Some(rs) =>
      if rs.budgetExhausted then RetryDecision(false, None)
      else if rs.attemptCount > rs.maxAttempts then RetryDecision(false, None)
      else if rs.nextRetryAt.Some? && (now as real) < rs.nextRetryAt.value then
        RetryDecision(false, Some(rs.nextRetryAt.value - now as real))
      else RetryDecision(true, Some(0.0))
  }

  /**
   * `can_retry` as the code runs it. `record_failure` stores `next_retry_at` as a naive UTC time
   * with `"Z"` appended; `can_retry` parses it with the `Z` turned into `+00:00`, which yields an
   * offset-aware time, and compares it with the naive `datetime.utcnow()`. Python refuses to order
   * an aware and a naive time and raises `TypeError`, which `Err` stands for. Answers given before
   * that comparison agree with the intended decision.
   */
  function CanRetryAsWritten(entry: Option<RetryState>, now: int): (r: Result<RetryDecision, string>)
    ensures r.Err? <==>
              entry.Some? && !entry.value.budgetExhausted && entry.value.attemptCount <= entry.value.maxAttempts
              && entry.value.nextRetryAt.Some?
    ensures r.Ok? ==> r.value == CanRetryDecision(entry, now)
  {
    match entry
    case None => Ok(RetryDecision(true, Some(0.0)))
    case Some(rs) =>
      if rs.budgetExhausted then Ok(RetryDecision(false, None))
      else if rs.attemptCount > rs.maxAttempts then Ok(RetryDecision(false, None))
      else if rs.nextRetryAt.Some? then Err("can't compare offset-naive and offset-aware datetimes")
      else Ok(RetryDecision(true, Some(0.0)))
  }

  /** The record invariant: a next-retry time only while budget remains; exhausted means over budget. */
  predicate WellFormed(rs: RetryState)
  {
    && (rs.nextRetryAt.Some? ==> !rs.budgetExhausted)
    && (rs.budgetExhausted ==> rs.attemptCount > rs.maxAttempts)
    && |rs.errorHistory| == rs.attemptCount - 1
  }

  /** Initialising and recording failures keep the record invariant. */
  lemma FailurePreservesWellFormed(rs: RetryState, f: Failure)
    requires WellFormed(rs)
    ensures WellFormed(AfterFailure(rs, f))
  {
  }

  /** The record after a sequence of failures, oldest first. */
  function FailAll(rs: RetryState, fs: seq<Failure>): RetryState
  {
    if |fs| == 0 then rs else AfterFailure(FailAll(rs, fs[..|fs| - 1]), fs[|fs| - 1])
  }

  /**
   * After k failures from a fresh record: the count is k+1, the history numbers the
   * attempts 1..k, and the budget is exhausted exactly when k >= 1 and k+1 > max_attempts.
   */
  lemma {:induction false} FailuresFromInit(rs: RetryState, fs: seq<Failure>)
    requires rs.attemptCount == 1 && rs.errorHistory == [] && !rs.budgetExhausted && rs.firstFailureAt.None?
    ensures FailAll(rs, fs).attemptCount == |fs| + 1
    ensures |FailAll(rs, fs).errorHistory| == |fs|
    ensures forall j :: 0 <= j < |fs| ==> FailAll(rs, fs).errorHistory[j].attemptNumber == j + 1
    ensures FailAll(rs, fs).budgetExhausted <==> |fs| >= 1 && |fs| + 1 > rs.maxAttempts
    ensures FailAll(rs, fs).maxAttempts == rs.maxAttempts
    ensures |fs| > 0 ==> FailAll(rs, fs).firstFailureAt == Some(fs[0].at)
    ensures |fs| > 0 ==> FailAll(rs, fs).lastFailureAt == Some(fs[|fs| - 1].at)
  {
    if |fs| > 0 {
      var prev := fs[..|fs| - 1];
      FailuresFromInit(rs, prev);
      if |prev| > 0 {
        assert prev[0] == fs[0];
      }
      var r := FailAll(rs, fs);
      forall j | 0 <= j < |fs| ensures r.errorHistory[j].attemptNumber == j + 1 {
        if j < |prev| {
          assert r.errorHistory[j] == FailAll(rs, prev).errorHistory[j];
        }
      }
    }
  }

  /** Right after a failure that leaves budget, the phase must wait exactly the backoff delay. */
  lemma WaitAfterFailure(rs: RetryState, f: Failure, later: int)
    requires !rs.budgetExhausted
    requires rs.attemptCount + 1 <= rs.maxAttempts
    ensures var r := AfterFailure(rs, f);
            && (Backoff(r) > 0.0 ==> CanRetryDecision(Some(r), f.at) == RetryDecision(false, Some(Backoff(r))))
            && (later as real >= f.at as real + Backoff(r) ==> CanRetryDecision(Some(r), later) == RetryDecision(true, Some(0.0)))
  {
  }

  /**
   * As written, `can_retry` raises for every record that has failed and still has budget, at any
   * time: the wait the intended decision computes is never reported.
   */
  lemma CanRetryRaisesAfterFailure(rs: RetryState, f: Failure, now: int)
    requires !rs.budgetExhausted
    requires rs.attemptCount + 1 <= rs.maxAttempts
    ensures CanRetryAsWritten(Some(AfterFailure(rs, f)), now).Err?
    ensures CanRetryAsWritten(Some(rs), now).Ok? ==> rs.nextRetryAt.None? || rs.attemptCount > rs.maxAttempts
  {
  }

  /** A fresh default record that fails once at time 0: the intended answer is "wait 2 s", the written one raises. */
  lemma CanRetryCounterexample()
    ensures var r := AfterFailure(NewRetryState("phase_0_0", "w", "a", None, None, None, None), Failure(0, "m", "transient", None, None, None, None));
            && CanRetryDecision(Some(r), 0) == RetryDecision(false, Some(2.0))
            && CanRetryAsWritten(Some(r), 0).Err?
  {
    var rs := NewRetryState("phase_0_0", "w", "a", None, None, None, None);
    var r := AfterFailure(rs, Failure(0, "m", "transient", None, None, None, None));
    assert r.attemptCount == 2 && r.strategy == "exponential" && r.baseSeconds == 1.0 && r.maxSeconds == 16.0;
    assert Pow2(1) == 2.0;
    assert Backoff(r) == 2.0;
  }

  /** An exhausted budget stays exhausted, and `can_retry` refuses without a wait time at any time. */
  lemma ExhaustedIsTerminal(rs: RetryState, f: Failure, now: int)
    requires rs.budgetExhausted
    ensures AfterFailure(rs, f).budgetExhausted
    ensures CanRetryDecision(Some(AfterFailure(rs, f)), now) == RetryDecision(false, None)
  {
  }

  function Lookup(m: map<string, RetryState>, phaseId: string): Option<RetryState>
  {
    if phaseId in m then Some(m[phaseId]) else None
  }

  /** After `reset_budget` (once or twice) the phase may proceed at once. */
  lemma ResetThenCanRetry(m: map<string, RetryState>, phaseId: string, now: int)
    ensures (m - {phaseId}) - {phaseId} == m - {phaseId}
    ensures CanRetryDecision(Lookup(m - {phaseId}, phaseId), now) == RetryDecision(true, Some(0.0))
    ensures forall p :: p != phaseId ==> Lookup(m - {phaseId}, p) == Lookup(m, p)
  {
  }

  /** An entry is removed by `cleanup_old_retries` when its last failure predates the cutoff. */
  predicate IsStale(rs: RetryState, cutoff: int)
  {
    rs.lastFailureAt.Some? && rs.lastFailureAt.value < cutoff
  }

  /** The phases `cleanup_old_retries` removes. */
  function StaleKeys(m: map<string, RetryState>, cutoff: int): set<string>
  {
    set k | k in m && IsStale(m[k], cutoff)
  }

  /**
   * `cleanup_old_retries` as the code runs it: each stored `last_failure_at` is parsed as an
   * offset-aware time and compared with a naive cutoff, which raises `TypeError` (`Err`) at the first
   * record that has failed, before anything is removed; with no failed record it removes nothing.
   */
  function CleanupAsWritten(m: map<string, RetryState>, cutoff: int): (r: Result<map<string, RetryState>, string>)
    ensures r.Err? <==> exists k :: k in m && m[k].lastFailureAt.Some?
    ensures r.Ok? ==> r.value == m - StaleKeys(m, cutoff) && r.value == m
  {
    if exists k :: k in m && m[k].lastFailureAt.Some? then Err("can't compare offset-naive and offset-aware datetimes")
    else
      assert StaleKeys(m, cutoff) == {};
      Ok(m)
  }

  /** Every record the intended cleanup would remove makes the written one raise instead, so stale records are never removed. */
  lemma CleanupNeverRemoves(m: map<string, RetryState>, cutoff: int)
    ensures StaleKeys(m, cutoff) != {} ==> CleanupAsWritten(m, cutoff).Err?
    ensures CleanupAsWritten(m, cutoff).Ok? ==> CleanupAsWritten(m, cutoff).value == m
  {
    if StaleKeys(m, cutoff) != {} {
      var k :| k in StaleKeys(m, cutoff);
      assert k in m && m[k].lastFailureAt.Some?;
    }
  }

  /** Entries that never failed survive cleanup, whatever their age. */
  lemma NeverFailedSurvivesCleanup(m: map<string, RetryState>, cutoff: int, phaseId: string)
    requires phaseId in m && m[phaseId].lastFailureAt.None?
    ensures phaseId in m - StaleKeys(m, cutoff)
  {
  }

  /** The retry-budget document's `retries` dictionary. */
  class RetryStore {
    var retries: map<string, RetryState>

    /** Every record is filed under its own phase id and is well formed. */
    ghost predicate Valid()
      reads this
    {
      forall k :: k in retries ==> retries[k].phaseId == k && WellFormed(retries[k])
    }

    /** A store over the document's current `retries` (empty when the file was just created). */
    constructor (initial: map<string, RetryState>)
      requires forall k :: k in initial ==> initial[k].phaseId == k && WellFormed(initial[k])
      ensures retries == initial && Valid()
    {
      retries := initial;
    }

    /** `init_retry`: (re)creates the record of `phaseId`, leaving every other record alone. */
    method InitRetry(
      phaseId: string, workflowId: string, agent: string,
      maxAttempts: Option<int>, strategy: Option<string>, base: Option<real>, maxDelay: Option<real>)
      returns (rs: RetryState)
      requires Valid()
      modifies this
      ensures Valid()
      ensures rs == NewRetryState(phaseId, workflowId, agent, maxAttempts, strategy, base, maxDelay)
      ensures retries == old(retries)[phaseId := rs]
    {
      rs := NewRetryState(phaseId, workflowId, agent, maxAttempts, strategy, base, maxDelay);
      retries := retries[phaseId := rs];
    }

    /** `record_failure`: an error when the phase has no record (store unchanged), else the updated record. */
    method RecordFailure(
      phaseId: string, now: int, errorMessage: string, errorType: string,
      exitCode: Option<int>, durationMs: Option<int>, stackTrace: Option<string>, context: Option<map<string, string>>)
      returns (r: Result<RetryState, string>)
      requires Valid()
      modifies this
      ensures Valid()
      ensures phaseId !in old(retries) ==> r.Err? && retries == old(retries)
      ensures phaseId in old(retries) ==>
                var f := Failure(now, errorMessage, errorType, exitCode, durationMs, stackTrace, context);
                && r == Ok(AfterFailure(old(retries)[phaseId], f))
                && retries == old(retries)[phaseId := r.value]
    {
      if phaseId !in retries {
        return Err("Phase " + phaseId + " not initialized. Call init_retry() first.");
      }
      var rs := retries[phaseId];
      var event := EventOf(rs, Failure(now, errorMessage, errorType, exitCode, durationMs, stackTrace, context));
      rs := rs.(errorHistory := rs.errorHistory + [event], lastFailureAt := Some(now));
      if rs.firstFailureAt.None? {
        rs := rs.(firstFailureAt := Some(now));
      }
      rs := rs.(attemptCount := rs.attemptCount + 1);
      if rs.attemptCount <= rs.maxAttempts {
        var delay := Backoff(rs);
        rs := rs.(nextRetryAt := Some(now as real + delay));
      } else {
        rs := rs.(budgetExhausted := true, nextRetryAt := None);
      }
      FailurePreservesWellFormed(retries[phaseId], Failure(now, errorMessage, errorType, exitCode, durationMs, stackTrace, context));
      retries := retries[phaseId := rs];
      r := Ok(rs);
    }

    /**
     * `can_retry` at time `now`, with the retry time compared as intended. In a valid store a
     * refusal without a wait always means the attempt count has passed the maximum.
     */
    method CanRetry(phaseId: string, now: int) returns (d: RetryDecision)
      ensures d == CanRetryDecision(Lookup(retries, phaseId), now)
      ensures phaseId !in retries ==> d == RetryDecision(true, Some(0.0))
      ensures Valid() && d == RetryDecision(false, None) ==>
                phaseId in retries && retries[phaseId].attemptCount > retries[phaseId].maxAttempts
    {
      if phaseId !in retries {
        return RetryDecision(true, Some(0.0));
      }
      var rs := retries[phaseId];
      if rs.budgetExhausted {
        return RetryDecision(false, None);
      }
      if rs.attemptCount > rs.maxAttempts {
        return RetryDecision(false, None);
      }
      if rs.nextRetryAt.Some? && (now as real) < rs.nextRetryAt.value {
        return RetryDecision(false, Some(rs.nextRetryAt.value - now as real));
      }
      return RetryDecision(true, Some(0.0));
    }

    /** `get_backoff_delay`: 0 for an unknown phase; reads the store and changes nothing. */
    method GetBackoffDelay(phaseId: string) returns (d: real)
      ensures phaseId !in retries ==> d == 0.0
      ensures phaseId in retries ==> d == Backoff(retries[phaseId])
    {
      if phaseId !in retries {
        return 0.0;
      }
      d := Backoff(retries[phaseId]);
    }

    /** `get_retry_state` */
    method GetRetryState(phaseId: string) returns (o: Option<RetryState>)
      ensures o.Some? <==> phaseId in retries
      ensures o.Some? ==> o.value == retries[phaseId]
    {
      o := if phaseId in retries then Some(retries[phaseId]) else None;
    }

    /** `reset_budget`: removes only this phase's record; a second reset changes nothing. */
    method ResetBudget(phaseId: string)
      requires Valid()
      modifies this
      ensures Valid()
      ensures retries == old(retries) - {phaseId}
    {
      if phaseId in retries {
        retries := retries - {phaseId};
      }
    }

    /** `cleanup_old_retries`: removes exactly the records whose last failure is older than the cutoff. */
    method CleanupOldRetries(now: int, maxAgeHours: int)
      requires Valid()
      modifies this
      ensures Valid()
      ensures retries == old(retries) - StaleKeys(old(retries), now - maxAgeHours * 3600)
    {
      var cutoff := now - maxAgeHours * 3600;
      var toRemove: set<string> := {};
      var pending := retries.Keys;
      while pending != {}
        invariant retries == old(retries)
        invariant pending <= retries.Keys
        invariant toRemove == set k | k in retries.Keys - pending && IsStale(retries[k], cutoff)
        decreases pending
      {
        var k :| k in pending;
        if IsStale(retries[k], cutoff) {
          toRemove := toRemove + {k};
        }
        pending := pending - {k};
      }
      assert toRemove == StaleKeys(retries, cutoff);
      if toRemove != {} {
        retries := retries - toRemove;
      } else {
        assert retries - toRemove == retries;
      }
    }
  }
}
