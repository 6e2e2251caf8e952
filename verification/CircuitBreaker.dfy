/** The three-state circuit breaker of stream/circuit_breaker.py.

    `call` is two atomic sections with the wrapped coroutine between them, so a run
    is a sequence of sections of any number of calls, of progress reports, and of
    resets, in any order. The class has the source's fields and methods; each method
    is tied to a function on the breaker's value, and the run theorems are about
    those functions.
  */
module CircuitBreakers {
  import opened Common
  import E = ErrorHandling

  datatype Circuit = Closed | Open | HalfOpen

  datatype Config = Config(
    failureThreshold: int, recoveryTimeout: int, successThreshold: int, multiplier: real, maxBackoff: int)
  {
    ghost predicate Sane() {
      failureThreshold >= 1 && successThreshold >= 1 && 0 <= recoveryTimeout && 0 <= maxBackoff && multiplier >= 1.0
    }
  }

  /** The defaults of the constructor, which the worker keeps (threshold 5, timeout 60). */
  const DEFAULTS := Config(5, 60, 2, 2.0, 3600)

  datatype Breaker = Breaker(
    state: Circuit, failureCount: int, successCount: int, backoffSeconds: int, lastFailureTime: Option<real>)

  function Initial(c: Config): Breaker {
    Breaker(Closed, 0, 0, c.recoveryTimeout, None)
  }

  /** Python's int() on a float: truncation toward zero. */
  function Trunc(x: real): int {
    if x >= 0.0 then x.Floor else -((-x).Floor)
  }

  function Escalated(c: Config, backoff: int, suggested: int): int {
    Trunc(MinReal(MaxReal(backoff as real * c.multiplier, suggested as real), c.maxBackoff as real))
  }

  predicate MayProbe(b: Breaker, now: real) {
    b.lastFailureTime.None? || now - b.lastFailureTime.value >= b.backoffSeconds as real
  }

  /** The first section of `call`: is the wrapped coroutine invoked, and in what state? */
  predicate Admits(b: Breaker, now: real) {
    b.state.Open? ==> MayProbe(b, now)
  }

  function Admitted(b: Breaker, now: real): Breaker {
    if b.state.Open? && MayProbe(b, now) then b.(state := HalfOpen, successCount := 0) else b
  }

  function Succeeded(c: Config, b: Breaker): Breaker {
    var b := b.(failureCount := 0);
    if !b.state.HalfOpen? then b else
    var b := b.(successCount := b.successCount + 1);
    if b.successCount >= c.successThreshold then b.(state := Closed, backoffSeconds := c.recoveryTimeout) else b
  }

  /** So many reports of success one after the other. */
  function Progressed(c: Config, b: Breaker, n: nat): Breaker {
    if n == 0 then b else Succeeded(c, Progressed(c, b, n - 1))
  }

  /** Does this failure (re)open the circuit? */
  predicate Opens(c: Config, b: Breaker) {
    b.state.HalfOpen? || b.failureCount + 1 >= c.failureThreshold
  }

  function Failed(c: Config, b: Breaker, now: real, suggested: int): Breaker {
    var b' := b.(failureCount := b.failureCount + 1, lastFailureTime := Some(now), successCount := 0);
    if Opens(c, b) then b'.(state := Open, backoffSeconds := Escalated(c, b.backoffSeconds, suggested)) else b'
  }

  // ---------------------------------------------------------------------------
  // The class
  // ---------------------------------------------------------------------------

  /** How the wrapped coroutine ended. */
  datatype Outcome = Returned | Raised(error: E.Error)

  datatype CallResult = Refused | Ran(outcome: Outcome)

  class CircuitBreaker {
    const config: Config
    var state: Circuit
    var failureCount: int
    var successCount: int
    var backoffSeconds: int
    var lastFailureTime: Option<real>

    ghost function View(): Breaker
      reads this
    {
      Breaker(state, failureCount, successCount, backoffSeconds, lastFailureTime)
    }

    constructor (config: Config)
      ensures this.config == config && View() == Initial(config)
    {
      this.config := config;
      state, failureCount, successCount := Closed, 0, 0;
      lastFailureTime := None;
      backoffSeconds := config.recoveryTimeout;
    }

    method Admit(now: real) returns (ok: bool)
      modifies this
      ensures ok <==> Admits(old(View()), now)
      ensures !ok <==>
                old(state) == Open && lastFailureTime.Some? && now - lastFailureTime.value < backoffSeconds as real
      ensures state == if ok && old(state) == Open then HalfOpen else old(state)
      ensures View() == Admitted(old(View()), now)
    {
      if state == Open {
        if lastFailureTime == None || now - lastFailureTime.value >= backoffSeconds as real {
          state := HalfOpen;
          successCount := 0;
        } else {
          return false;
        }
      }
      return true;
    }

    method RecordSuccess()
      modifies this
      ensures View() == Succeeded(config, old(View()))
      ensures failureCount == 0 && lastFailureTime == old(lastFailureTime)
      ensures old(state) != HalfOpen ==> state == old(state) && backoffSeconds == old(backoffSeconds)
    {
      failureCount := 0;
      if state == HalfOpen {
        successCount := successCount + 1;
        if successCount >= config.successThreshold {
          state := Closed;
          backoffSeconds := config.recoveryTimeout;
        }
      }
    }

    method NewBackoff(suggested: int) returns (r: int)
      ensures r == Escalated(config, backoffSeconds, suggested)
    {
      var grown := backoffSeconds as real * config.multiplier;
      if grown < suggested as real { grown := suggested as real; }
      if grown > config.maxBackoff as real { grown := config.maxBackoff as real; }
      return Trunc(grown);
    }

    method RecordFailure(error: E.Error, now: real)
      modifies this
      ensures View() == Failed(config, old(View()), now, E.GetBackoffDuration(error))
      ensures failureCount == old(failureCount) + 1 && successCount == 0 && lastFailureTime == Some(now)
      ensures state == if old(state) == HalfOpen || failureCount >= config.failureThreshold then Open else old(state)
    {
      failureCount := failureCount + 1;
      lastFailureTime := Some(now);
      successCount := 0;
      var suggested := E.GetBackoffDuration(error);
      if state == HalfOpen {
        backoffSeconds := NewBackoff(suggested);
        state := Open;
      } else if failureCount >= config.failureThreshold {
        backoffSeconds := NewBackoff(suggested);
        state := Open;
      }
    }

    method Reset()
      modifies this
      ensures View() == Initial(config)
    {
      state := Closed;
      failureCount := 0;
      successCount := 0;
      backoffSeconds := config.recoveryTimeout;
      lastFailureTime := None;
    }

    /** `call` around a coroutine that reports progress so many times and ends at time `end`. */
    method Call(begin: real, progress: nat, end: real, outcome: Outcome) returns (r: CallResult)
      modifies this
      ensures r.Refused? <==> !Admits(old(View()), begin)
      ensures r.Refused? ==> View() == old(View())
      ensures r.Ran? ==> r.outcome == outcome
      ensures r.Ran? ==>
                var b := Progressed(config, Admitted(old(View()), begin), progress);
                View() == match outcome
                          case Returned => Succeeded(config, b)
                          case Raised(e) => Failed(config, b, end, E.GetBackoffDuration(e))
    {
      var ok := Admit(begin);
      if !ok { return Refused; }
      ghost var admitted := View();
      for i := 0 to progress
        invariant View() == Progressed(config, admitted, i)
      {
        RecordSuccess();
      }
      match outcome {
        case Returned => RecordSuccess();
        case Raised(e) => RecordFailure(e, end);
      }
      return Ran(outcome);
    }
  }

  // ---------------------------------------------------------------------------
  // Runs
  // ---------------------------------------------------------------------------

  datatype Event =
    | Begin(now: real)                      // a call arrives
    | Progress                              // record_success from inside or outside a call
    | Return                                // a running call returns
    | Raise(now: real, error: E.Error)      // a running call raises
    | Reset

  /** What an observer of the breaker writes down. */
  datatype Entry =
    | Invoked(at: real)                     // the wrapped coroutine is invoked
    | Probing                               // OPEN to HALF_OPEN
    | Success
    | Failure
    | Opened(at: real, until: real)         // into OPEN, with the window it announces
    | Recovered                             // HALF_OPEN to CLOSED
    | WasReset

  /** The breaker, the calls running, the clock, the log, and the times at which it opened
      since it last closed. */
  datatype Run = Run(b: Breaker, running: nat, clock: real, log: seq<Entry>, openings: seq<real>)

  function Start(c: Config, clock: real): Run {
    Run(Initial(c), 0, clock, [], [])
  }

  function RunSuccess(c: Config, r: Run): Run {
    var b := Succeeded(c, r.b);
    if r.b.state.HalfOpen? && b.state.Closed?
    then r.(b := b, log := r.log + [Success, Recovered], openings := [])
    else r.(b := b, log := r.log + [Success])
  }

  function RunFailure(c: Config, r: Run, now: real, suggested: int): Run {
    var b := Failed(c, r.b, now, suggested);
    if Opens(c, r.b)
    then r.(b := b, clock := now, openings := r.openings + [now],
            log := r.log + [Failure, Opened(now, now + b.backoffSeconds as real)])
    else r.(b := b, clock := now, log := r.log + [Failure])
  }

  function RunBegin(r: Run, now: real): Run {
    if !Admits(r.b, now) then r.(clock := now)
    else r.(b := Admitted(r.b, now), clock := now, running := r.running + 1,
            log := r.log + (if r.b.state.Open? then [Probing] else []) + [Invoked(now)])
  }

  /** A clock that steps back, or the end of a call when none runs, is no event. */
  function Step(c: Config, r: Run, e: Event): Run {
    match e
    case Begin(now) => if now < r.clock then r else RunBegin(r, now)
    case Progress => RunSuccess(c, r)
    case Return => if r.running == 0 then r else RunSuccess(c, r).(running := r.running - 1)
    case Raise(now, error) =>
      if r.running == 0 || now < r.clock then r
      else RunFailure(c, r, now, E.GetBackoffDuration(error)).(running := r.running - 1)
    case Reset => r.(b := Initial(c), log := r.log + [WasReset], openings := [])
  }

  function Exec(c: Config, r: Run, es: seq<Event>): Run {
    if es == [] then r else Step(c, Exec(c, r, es[..|es| - 1]), es[|es| - 1])
  }

  // ---------------------------------------------------------------------------
  // State invariants, over every interleaving
  // ---------------------------------------------------------------------------

  ghost predicate StateInv(c: Config, b: Breaker) {
    && (b.state.Closed? ==> b.failureCount < c.failureThreshold && b.backoffSeconds == c.recoveryTimeout)
    && (b.state.HalfOpen? ==> 0 <= b.successCount < c.successThreshold)
    && (!b.state.Closed? ==> b.lastFailureTime.Some?)
    && (b.state.Open? ==> b.successCount == 0)
    && 0 <= b.failureCount && 0 <= b.successCount
  }

  lemma {:induction false} StatesAreConsistent(c: Config, t: real, es: seq<Event>)
    requires c.Sane()
    ensures StateInv(c, Exec(c, Start(c, t), es).b)
  {
    if es != [] {
      StatesAreConsistent(c, t, es[..|es| - 1]);
    }
  }

  // ---------------------------------------------------------------------------
  // Half-open: entered only from OPEN, left for CLOSED only by enough successes in a row
  // ---------------------------------------------------------------------------

  function Successes(log: seq<Entry>): nat {
    if log == [] then 0 else Successes(log[..|log| - 1]) + (if log[|log| - 1] == Success then 1 else 0)
  }

  /** The log ends in a trial that began at entry i: no failure, recovery or reset since,
      and exactly n successes. */
  ghost predicate Trial(log: seq<Entry>, i: int, n: int) {
    && 0 <= i < |log|
    && log[i] == Probing
    && (forall j :: i < j < |log| ==> log[j] == Success || log[j].Invoked?)
    && Successes(log[i..]) == n
  }

  ghost predicate EveryRecoveryEarned(c: Config, log: seq<Entry>) {
    forall j :: 0 <= j < |log| && log[j] == Recovered ==> exists i :: Trial(log[..j], i, c.successThreshold)
  }

  ghost predicate TrialInv(c: Config, r: Run) {
    && (r.b.state.HalfOpen? ==> exists i :: Trial(r.log, i, r.b.successCount))
    && EveryRecoveryEarned(c, r.log)
  }

  lemma TrialGrows(log: seq<Entry>, i: int, n: int, e: Entry)
    requires Trial(log, i, n) && (e == Success || e.Invoked?)
    ensures Trial(log + [e], i, if e == Success then n + 1 else n)
  {
    assert (log + [e])[i..][..|log| - i] == log[i..];
  }

  lemma EarnedGrows(c: Config, log: seq<Entry>, e: Entry)
    requires EveryRecoveryEarned(c, log)
    requires e == Recovered ==> exists i :: Trial(log, i, c.successThreshold)
    ensures EveryRecoveryEarned(c, log + [e])
  {
    forall j | 0 <= j < |log + [e]| && (log + [e])[j] == Recovered
      ensures exists i :: Trial((log + [e])[..j], i, c.successThreshold)
    {
      assert (log + [e])[..j] == log[..j];
      assert j == |log| ==> log[..j] == log;
    }
  }

  lemma SuccessKeepsTrials(c: Config, r: Run)
    requires c.Sane() && StateInv(c, r.b) && TrialInv(c, r)
    ensures TrialInv(c, RunSuccess(c, r))
  {
    EarnedGrows(c, r.log, Success);
    if r.b.state.HalfOpen? {
      var i :| Trial(r.log, i, r.b.successCount);
      TrialGrows(r.log, i, r.b.successCount, Success);
      if RunSuccess(c, r).b.state.Closed? {
        EarnedGrows(c, r.log + [Success], Recovered);
        assert r.log + [Success, Recovered] == r.log + [Success] + [Recovered];
      }
    }
  }

  lemma FailureKeepsTrials(c: Config, r: Run, now: real, suggested: int)
    requires TrialInv(c, r)
    ensures TrialInv(c, RunFailure(c, r, now, suggested))
  {
    EarnedGrows(c, r.log, Failure);
    if Opens(c, r.b) {
      var o := Opened(now, now + Failed(c, r.b, now, suggested).backoffSeconds as real);
      EarnedGrows(c, r.log + [Failure], o);
      assert r.log + [Failure, o] == r.log + [Failure] + [o];
    }
  }

  lemma BeginKeepsTrials(c: Config, r: Run, now: real)
    requires TrialInv(c, r)
    ensures TrialInv(c, RunBegin(r, now))
  {
    if Admits(r.b, now) {
      var log := r.log + (if r.b.state.Open? then [Probing] else []);
      if r.b.state.Open? {
        EarnedGrows(c, r.log, Probing);
        assert log[|r.log|..] == [Probing];
        assert Trial(log, |r.log|, 0);
        TrialGrows(log, |r.log|, 0, Invoked(now));
      } else {
        assert log == r.log;
        if r.b.state.HalfOpen? {
          var i :| Trial(log, i, r.b.successCount);
          TrialGrows(log, i, r.b.successCount, Invoked(now));
        }
      }
      EarnedGrows(c, log, Invoked(now));
      assert RunBegin(r, now).log == log + [Invoked(now)];
    }
  }

  /** Whatever interleaving of calls, reports and resets: a half-open breaker is in a trial that
      began when it was open and has seen exactly `successCount` successes and no failure, and
      every recovery came after a trial of exactly `successThreshold` of them. */
  lemma {:induction false} RecoveriesAreEarned(c: Config, t: real, es: seq<Event>)
    requires c.Sane()
    ensures TrialInv(c, Exec(c, Start(c, t), es))
  {
    if es != [] {
      var before := es[..|es| - 1];
      RecoveriesAreEarned(c, t, before);
      StatesAreConsistent(c, t, before);
      var r := Exec(c, Start(c, t), before);
      match es[|es| - 1]
      case Begin(now) => BeginKeepsTrials(c, r, now);
      case Progress => SuccessKeepsTrials(c, r);
      case Return => SuccessKeepsTrials(c, r);
      case Raise(now, error) => FailureKeepsTrials(c, r, now, E.GetBackoffDuration(error));
      case Reset => EarnedGrows(c, r.log, WasReset);
    }
  }

  // ---------------------------------------------------------------------------
  // Failures are counted from the last success, and the count decides what opens
  // ---------------------------------------------------------------------------

  /** Failures since the last success or reset. */
  function Fails(log: seq<Entry>): nat {
    if log == [] then 0 else
    match log[|log| - 1]
    case Failure => Fails(log[..|log| - 1]) + 1
    case Success => 0
    case WasReset => 0
    case _ => Fails(log[..|log| - 1])
  }

  /** A probe has been let through, and neither a failure nor a recovery or reset has come since. */
  predicate Trying(log: seq<Entry>) {
    log != [] &&
    match log[|log| - 1]
    case Probing => true
    case Invoked(_) => Trying(log[..|log| - 1])
    case Success => Trying(log[..|log| - 1])
    case _ => false
  }

  /** A failure opens the circuit exactly if it ends a trial or is one of failureThreshold failures
      with no success between them; and nothing else opens it. */
  ghost predicate OpenedByFailures(c: Config, log: seq<Entry>) {
    && (forall j :: 0 <= j < |log| && log[j] == Failure ==>
          ((j + 1 < |log| && log[j + 1].Opened?) <==> Trying(log[..j]) || Fails(log[..j + 1]) >= c.failureThreshold))
    && (forall j :: 0 <= j < |log| && log[j].Opened? ==> 0 < j && log[j - 1] == Failure)
  }

  ghost predicate CountInv(c: Config, r: Run) {
    && r.b.failureCount == Fails(r.log)
    && (r.b.state.HalfOpen? <==> Trying(r.log))
    && OpenedByFailures(c, r.log)
  }

  lemma LogSnoc(log: seq<Entry>, e: Entry)
    ensures (log + [e])[..|log|] == log
    ensures forall j :: 0 <= j <= |log| ==> (log + [e])[..j] == log[..j]
  {
  }

  lemma OtherEntry(c: Config, log: seq<Entry>, e: Entry)
    requires OpenedByFailures(c, log) && e != Failure && !e.Opened?
    ensures OpenedByFailures(c, log + [e])
  {
    LogSnoc(log, e);
  }

  lemma FailureEntry(c: Config, log: seq<Entry>)
    requires OpenedByFailures(c, log) && !Trying(log) && Fails(log) + 1 < c.failureThreshold
    ensures OpenedByFailures(c, log + [Failure])
    ensures Fails(log + [Failure]) == Fails(log) + 1 && !Trying(log + [Failure])
  {
    LogSnoc(log, Failure);
    assert log[..|log|] == log && (log + [Failure])[..|log| + 1] == log + [Failure];
  }

  lemma OpeningEntries(c: Config, log: seq<Entry>, at: real, until: real)
    requires OpenedByFailures(c, log) && (Trying(log) || Fails(log) + 1 >= c.failureThreshold)
    ensures OpenedByFailures(c, log + [Failure] + [Opened(at, until)])
    ensures Fails(log + [Failure] + [Opened(at, until)]) == Fails(log) + 1
    ensures !Trying(log + [Failure] + [Opened(at, until)])
  {
    var failed := log + [Failure];
    LogSnoc(log, Failure);
    LogSnoc(failed, Opened(at, until));
    assert log[..|log|] == log && failed[..|log| + 1] == failed;
    assert Fails(failed) == Fails(log) + 1;
  }

  lemma SuccessCounts(c: Config, r: Run)
    requires CountInv(c, r)
    ensures CountInv(c, RunSuccess(c, r))
  {
    var log := r.log + [Success];
    OtherEntry(c, r.log, Success);
    LogSnoc(r.log, Success);
    if r.b.state.HalfOpen? && Succeeded(c, r.b).state.Closed? {
      OtherEntry(c, log, Recovered);
      LogSnoc(log, Recovered);
      assert RunSuccess(c, r).log == log + [Recovered];
    }
  }

  lemma FailureCounts(c: Config, r: Run, now: real, suggested: int)
    requires CountInv(c, r)
    ensures CountInv(c, RunFailure(c, r, now, suggested))
  {
    if Opens(c, r.b) {
      var until := now + Failed(c, r.b, now, suggested).backoffSeconds as real;
      OpeningEntries(c, r.log, now, until);
      assert RunFailure(c, r, now, suggested).log == r.log + [Failure] + [Opened(now, until)];
    } else {
      FailureEntry(c, r.log);
    }
  }

  lemma BeginCounts(c: Config, r: Run, now: real)
    requires CountInv(c, r)
    ensures CountInv(c, RunBegin(r, now))
  {
    if Admits(r.b, now) {
      var log := r.log + (if r.b.state.Open? then [Probing] else []);
      if r.b.state.Open? {
        OtherEntry(c, r.log, Probing);
        LogSnoc(r.log, Probing);
      } else {
        assert log == r.log;
      }
      OtherEntry(c, log, Invoked(now));
      LogSnoc(log, Invoked(now));
      assert RunBegin(r, now).log == log + [Invoked(now)];
    }
  }

  /** Over every interleaving: the failure count is the number of failures since the last success, in whatever state
      that came, and exactly the failures that end a trial or complete failureThreshold of them open the circuit. */
  lemma {:induction false} FailuresAreCounted(c: Config, t: real, es: seq<Event>)
    requires c.Sane()
    ensures CountInv(c, Exec(c, Start(c, t), es))
  {
    if es != [] {
      FailuresAreCounted(c, t, es[..|es| - 1]);
      var r := Exec(c, Start(c, t), es[..|es| - 1]);
      match es[|es| - 1]
      case Begin(now) => BeginCounts(c, r, now);
      case Progress => SuccessCounts(c, r);
      case Return => SuccessCounts(c, r);
      case Raise(now, error) => FailureCounts(c, r, now, E.GetBackoffDuration(error));
      case Reset =>
        OtherEntry(c, r.log, WasReset);
        LogSnoc(r.log, WasReset);
    }
  }

  // ---------------------------------------------------------------------------
  // Backoff: bounds for any multiplier, closed form for doubling
  // ---------------------------------------------------------------------------

  lemma MultiplierGrows(x: real, m: real)
    requires x >= 0.0 && m >= 1.0
    ensures x * m >= x
  {
    assert x * (m - 1.0) >= 0.0;
  }

  lemma TruncWithin(x: real, lo: nat, hi: int)
    requires lo as real <= x <= hi as real
    ensures lo <= Trunc(x) <= hi
  {
    assert x.Floor as real <= x < x.Floor as real + 1.0;
  }

  /** int() of the larger of multiple and suggestion, capped: less than one second below it. */
  lemma EscalationTruncates(c: Config, backoff: int, suggested: int)
    requires c.Sane() && 0 <= backoff
    ensures var multiple := backoff as real * c.multiplier;
            var larger := if multiple < suggested as real then suggested as real else multiple;
            var capped := if larger < c.maxBackoff as real then larger else c.maxBackoff as real;
            Escalated(c, backoff, suggested) as real <= capped < Escalated(c, backoff, suggested) as real + 1.0
  {
    MultiplierGrows(backoff as real, c.multiplier);
  }

  lemma EscalationGrows(c: Config, backoff: int, suggested: int)
    requires c.Sane() && 0 <= backoff <= c.maxBackoff
    ensures backoff <= Escalated(c, backoff, suggested) <= c.maxBackoff
  {
    MultiplierGrows(backoff as real, c.multiplier);
    var grown := MaxReal(backoff as real * c.multiplier, suggested as real);
    TruncWithin(MinReal(grown, c.maxBackoff as real), backoff, c.maxBackoff);
  }

  ghost predicate InRange(c: Config, b: Breaker) {
    c.recoveryTimeout <= b.backoffSeconds <= c.maxBackoff
  }

  ghost predicate ClosedSince(log: seq<Entry>, n: nat) {
    exists j :: n <= j < |log| && (log[j] == Recovered || log[j] == WasReset)
  }

  lemma StepBackoff(c: Config, r: Run, e: Event)
    requires c.Sane() && c.recoveryTimeout <= c.maxBackoff && InRange(c, r.b)
    ensures var r' := Step(c, r, e);
            && InRange(c, r'.b)
            && r.log <= r'.log
            && (r'.b.backoffSeconds >= r.b.backoffSeconds || ClosedSince(r'.log, |r.log|))
  {
    match e
    case Raise(now, error) => EscalationGrows(c, r.b.backoffSeconds, E.GetBackoffDuration(error));
    case Reset => assert Step(c, r, e).log[|r.log|] == WasReset;
    case Progress | Return =>
      if RunSuccess(c, r).b.backoffSeconds < r.b.backoffSeconds {
        assert RunSuccess(c, r).log[|r.log| + 1] == Recovered;
      }
    case _ =>
  }

  /** For any multiplier of at least 1, truncation included: the backoff stays within
      [recoveryTimeout, maxBackoff] and never decreases until the breaker closes again. */
  lemma {:induction false} BackoffNeverDecreases(c: Config, r: Run, es: seq<Event>)
    requires c.Sane() && c.recoveryTimeout <= c.maxBackoff && InRange(c, r.b)
    ensures var r' := Exec(c, r, es);
            && InRange(c, r'.b)
            && r.log <= r'.log
            && (r'.b.backoffSeconds >= r.b.backoffSeconds || ClosedSince(r'.log, |r.log|))
  {
    if es != [] {
      BackoffNeverDecreases(c, r, es[..|es| - 1]);
      StepBackoff(c, Exec(c, r, es[..|es| - 1]), es[|es| - 1]);
    }
  }

  /** Once at the cap, the backoff is exactly the cap until the breaker closes again. */
  lemma CapIsFixed(c: Config, r: Run, es: seq<Event>)
    requires c.Sane() && c.recoveryTimeout <= c.maxBackoff == r.b.backoffSeconds
    ensures Exec(c, r, es).b.backoffSeconds == c.maxBackoff || ClosedSince(Exec(c, r, es).log, |r.log|)
  {
    BackoffNeverDecreases(c, r, es);
  }

  function Pow2(k: nat): (p: nat)
    ensures p >= 1
  {
    if k == 0 then 1 else 2 * Pow2(k - 1)
  }

  /** The backoff after k openings in a row. */
  function ClosedForm(c: Config, k: nat): int {
    if k == 0 then c.recoveryTimeout else MinInt(c.recoveryTimeout * Pow2(k), c.maxBackoff)
  }

  /** The suggestion for a rate limit is not above the first doubling, or the cap hides it. */
  predicate SuggestionsFit(c: Config) {
    E.RATE_LIMIT_SECONDS <= 2 * c.recoveryTimeout || c.maxBackoff <= 2 * c.recoveryTimeout
  }

  lemma EscalatedDoubles(c: Config, b: int, s: int)
    requires c.Sane() && c.multiplier == 2.0 && b >= 0
    ensures Escalated(c, b, s) == MinInt(if 2 * b >= s then 2 * b else s, c.maxBackoff)
  {
    assert b as real * c.multiplier == (2 * b) as real;
  }

  /** With doubling, an opening makes the backoff twice as long, or 60 s after a rate limit and 5 s after any other
      error if that is more, within the cap. */
  lemma EscalatedByError(c: Config, b: int, e: E.Error)
    requires c.Sane() && c.multiplier == 2.0 && b >= 0
    ensures var suggested := if e.inBackoff then 60 else 5;
            var larger := if 2 * b < suggested then suggested else 2 * b;
            Escalated(c, b, E.GetBackoffDuration(e)) == if larger < c.maxBackoff then larger else c.maxBackoff
  {
    EscalatedDoubles(c, b, E.GetBackoffDuration(e));
  }

  lemma Doubling(r: nat, k: nat)
    ensures r * Pow2(k + 1) == 2 * (r * Pow2(k)) >= 2 * r
  {
    var p := Pow2(k);
    assert Pow2(k + 1) == 2 * p;
    assert r * p >= r;
  }

  lemma ClosedFormStep(c: Config, k: nat, e: E.Error)
    requires c.Sane() && c.multiplier == 2.0 && SuggestionsFit(c)
    ensures Escalated(c, ClosedForm(c, k), E.GetBackoffDuration(e)) == ClosedForm(c, k + 1)
  {
    Doubling(c.recoveryTimeout, k);
    if k > 0 {
      Doubling(c.recoveryTimeout, k - 1);
    } else {
      assert c.recoveryTimeout * Pow2(0) == c.recoveryTimeout;
    }
    EscalatedDoubles(c, ClosedForm(c, k), E.GetBackoffDuration(e));
  }

  ghost predicate FormHolds(c: Config, r: Run) {
    r.b.backoffSeconds == ClosedForm(c, |r.openings|)
  }

  lemma {:induction false} ClosedFormHolds(c: Config, t: real, es: seq<Event>)
    requires c.Sane() && c.multiplier == 2.0 && SuggestionsFit(c)
    ensures FormHolds(c, Exec(c, Start(c, t), es))
  {
    if es != [] {
      ClosedFormHolds(c, t, es[..|es| - 1]);
      StatesAreConsistent(c, t, es[..|es| - 1]);
      var r := Exec(c, Start(c, t), es[..|es| - 1]);
      if es[|es| - 1].Raise? {
        ClosedFormStep(c, |r.openings|, es[|es| - 1].error);
      }
    }
  }

  const RATE_LIMITED := E.Error(false, true, true)

  /** n rate-limited calls in a row, all at time 0. */
  function RateLimitedCalls(n: nat): seq<Event> {
    if n == 0 then [] else RateLimitedCalls(n - 1) + [Begin(0.0), Raise(0.0, RATE_LIMITED)]
  }

  lemma {:induction false} RateLimitedRun(c: Config, n: nat)
    requires c.Sane() && n < c.failureThreshold
    ensures var r := Exec(c, Start(c, 0.0), RateLimitedCalls(n));
            && r.b == Breaker(Closed, n, 0, c.recoveryTimeout, if n == 0 then None else Some(0.0))
            && r.running == 0 && r.clock == 0.0 && r.openings == []
  {
    if n > 0 {
      RateLimitedRun(c, n - 1);
      OneRateLimitedCall(c, RateLimitedCalls(n - 1));
    }
  }

  lemma OneRateLimitedCall(c: Config, es: seq<Event>)
    ensures Exec(c, Start(c, 0.0), es + [Begin(0.0), Raise(0.0, RATE_LIMITED)])
            == Step(c, Step(c, Exec(c, Start(c, 0.0), es), Begin(0.0)), Raise(0.0, RATE_LIMITED))
  {
    var all := es + [Begin(0.0), Raise(0.0, RATE_LIMITED)];
    assert all[..|all| - 1] == es + [Begin(0.0)];
    assert (es + [Begin(0.0)])[..|es|] == es;
  }

  ghost predicate AlwaysClosedForm(c: Config) {
    forall es :: FormHolds(c, Exec(c, Start(c, 0.0), es))
  }

  lemma RateLimitBreaksForm(c: Config)
    requires c.Sane() && c.multiplier == 2.0 && !SuggestionsFit(c)
    ensures !FormHolds(c, Exec(c, Start(c, 0.0), RateLimitedCalls(c.failureThreshold)))
  {
    RateLimitedRun(c, c.failureThreshold - 1);
    OneRateLimitedCall(c, RateLimitedCalls(c.failureThreshold - 1));
    EscalatedDoubles(c, c.recoveryTimeout, E.RATE_LIMIT_SECONDS);
    FirstForm(c);
  }

  lemma FirstForm(c: Config)
    ensures ClosedForm(c, 1) == MinInt(2 * c.recoveryTimeout, c.maxBackoff)
  {
    assert Pow2(1) == 2 * Pow2(0) == 2;
  }

  /** With doubling, the backoff is min(r * 2^k, M) after k openings in every run, if and only
      if the rate-limit suggestion of 60 s is at most 2r or the cap M is. */
  lemma BackoffClosedForm(c: Config)
    requires c.Sane() && c.multiplier == 2.0
    ensures SuggestionsFit(c) <==> AlwaysClosedForm(c)
  {
    if SuggestionsFit(c) {
      forall es ensures FormHolds(c, Exec(c, Start(c, 0.0), es)) { ClosedFormHolds(c, 0.0, es); }
    } else {
      RateLimitBreaksForm(c);
    }
  }

  // ---------------------------------------------------------------------------
  // Windows and elapsed time
  // ---------------------------------------------------------------------------

  ghost predicate NoReset(es: seq<Event>) {
    forall i :: 0 <= i < |es| ==> es[i] != Reset
  }

  /** No coroutine is invoked inside a window that an earlier opening announced. */
  ghost predicate WindowsRespected(log: seq<Entry>) {
    forall i, j :: 0 <= i < j < |log| && log[i].Opened? && log[j].Invoked? ==> log[j].at >= log[i].until
  }

  ghost predicate WindowInv(c: Config, r: Run) {
    && WindowsRespected(r.log)
    && StateInv(c, r.b) && InRange(c, r.b)
    && (r.b.lastFailureTime.Some? ==> r.b.lastFailureTime.value <= r.clock)
    && forall i :: 0 <= i < |r.log| && r.log[i].Opened? ==>
         r.log[i].until <= if r.b.state.Open? then r.b.lastFailureTime.value + r.b.backoffSeconds as real else r.clock
  }

  lemma BeginKeepsWindows(c: Config, r: Run, now: real)
    requires c.Sane() && WindowInv(c, r) && r.clock <= now
    ensures WindowInv(c, RunBegin(r, now))
  {
    var r' := RunBegin(r, now);
    forall i | 0 <= i < |r'.log| && r'.log[i].Opened? ensures i < |r.log| && r'.log[i] == r.log[i] {}
  }

  lemma FailureKeepsWindows(c: Config, r: Run, now: real, suggested: int)
    requires c.Sane() && c.recoveryTimeout <= c.maxBackoff && WindowInv(c, r) && r.clock <= now
    ensures WindowInv(c, RunFailure(c, r, now, suggested))
  {
    EscalationGrows(c, r.b.backoffSeconds, suggested);
    var r' := RunFailure(c, r, now, suggested);
    forall i | 0 <= i < |r'.log| && r'.log[i].Opened?
      ensures r'.log[i].until <=
              if r'.b.state.Open? then r'.b.lastFailureTime.value + r'.b.backoffSeconds as real else r'.clock
    {
      if i < |r.log| { assert r'.log[i] == r.log[i]; }
    }
  }

  lemma SuccessKeepsWindows(c: Config, r: Run)
    requires c.Sane() && c.recoveryTimeout <= c.maxBackoff && WindowInv(c, r)
    ensures WindowInv(c, RunSuccess(c, r))
  {
  }

  lemma StepWindows(c: Config, r: Run, e: Event)
    requires c.Sane() && c.recoveryTimeout <= c.maxBackoff && WindowInv(c, r) && e != Reset
    ensures WindowInv(c, Step(c, r, e))
  {
    match e
    case Begin(now) => if r.clock <= now { BeginKeepsWindows(c, r, now); }
    case Raise(now, error) =>
      if r.running > 0 && r.clock <= now { FailureKeepsWindows(c, r, now, E.GetBackoffDuration(error)); }
    case _ => SuccessKeepsWindows(c, r);
  }

  /** Over every interleaving without resets, and for any multiplier of at least 1. */
  lemma {:induction false} NoCallInsideWindow(c: Config, t: real, es: seq<Event>)
    requires c.Sane() && c.recoveryTimeout <= c.maxBackoff && NoReset(es)
    ensures WindowInv(c, Exec(c, Start(c, t), es))
    ensures WindowsRespected(Exec(c, Start(c, t), es).log)
  {
    if es != [] {
      NoCallInsideWindow(c, t, es[..|es| - 1]);
      StepWindows(c, Exec(c, Start(c, t), es[..|es| - 1]), es[|es| - 1]);
    }
  }

  /** One call at a time, as a single stream loop makes them. */
  ghost predicate Sequential(c: Config, t: real, es: seq<Event>) {
    forall i :: 0 <= i < |es| && es[i].Begin? ==> Exec(c, Start(c, t), es[..i]).running == 0
  }

  /** The sum of min(r * 2^i, M) for i from 1 to n. */
  function TotalBackoff(c: Config, n: nat): int {
    if n == 0 then 0 else TotalBackoff(c, n - 1) + ClosedForm(c, n)
  }

  ghost predicate ElapsedInv(c: Config, r: Run) {
    && r.running <= 1
    && (r.b.state.Open? ==> r.running == 0)
    && (r.openings == [] <==> r.b.state.Closed?)
    && (r.openings != [] ==> r.b.lastFailureTime == Some(r.openings[|r.openings| - 1]))
    && (r.b.state.HalfOpen? ==> r.clock - r.b.lastFailureTime.value >= r.b.backoffSeconds as real)
    && forall n :: 0 <= n < |r.openings| ==> r.openings[n] - r.openings[0] >= TotalBackoff(c, n) as real
  }

  /** Whatever is suggested, the backoff after k openings is at least the closed form. */
  ghost predicate FormBounds(c: Config, r: Run) {
    r.b.backoffSeconds >= ClosedForm(c, |r.openings|)
  }

  lemma FormBoundStep(c: Config, backoff: int, k: nat, suggested: int)
    requires c.Sane() && c.multiplier == 2.0 && backoff >= ClosedForm(c, k)
    ensures Escalated(c, backoff, suggested) >= ClosedForm(c, k + 1)
  {
    Doubling(c.recoveryTimeout, k);
    if k == 0 { assert c.recoveryTimeout * Pow2(0) == c.recoveryTimeout; }
    EscalatedDoubles(c, backoff, suggested);
  }

  lemma {:induction false} ClosedFormBounds(c: Config, t: real, es: seq<Event>)
    requires c.Sane() && c.multiplier == 2.0
    ensures FormBounds(c, Exec(c, Start(c, t), es))
  {
    if es != [] {
      ClosedFormBounds(c, t, es[..|es| - 1]);
      StatesAreConsistent(c, t, es[..|es| - 1]);
      var r := Exec(c, Start(c, t), es[..|es| - 1]);
      if es[|es| - 1].Raise? {
        FormBoundStep(c, r.b.backoffSeconds, |r.openings|, E.GetBackoffDuration(es[|es| - 1].error));
      }
    }
  }

  lemma StepElapsed(c: Config, r: Run, e: Event)
    requires c.Sane() && StateInv(c, r.b) && FormBounds(c, r) && ElapsedInv(c, r)
    requires e != Reset && (e.Begin? ==> r.running == 0)
    ensures ElapsedInv(c, Step(c, r, e))
  {
  }

  lemma {:induction false} ExecElapsed(c: Config, t: real, es: seq<Event>)
    requires c.Sane() && c.multiplier == 2.0
    requires NoReset(es) && Sequential(c, t, es)
    ensures ElapsedInv(c, Exec(c, Start(c, t), es))
  {
    if es != [] {
      var before := es[..|es| - 1];
      forall i | 0 <= i < |before| && before[i].Begin?
        ensures Exec(c, Start(c, t), before[..i]).running == 0
      {
        assert before[..i] == es[..i];
      }
      ExecElapsed(c, t, before);
      StatesAreConsistent(c, t, before);
      ClosedFormBounds(c, t, before);
      StepElapsed(c, Exec(c, Start(c, t), before), es[|es| - 1]);
    }
  }

  /** If the breaker opened at t1 and n probes have failed since without a close in between,
      the n-th of them failed at least the sum of min(r * 2^i, M), i = 1..n, after t1: whatever
      backoff the errors suggest, which can only make it more. */
  lemma BackoffLowerBound(c: Config, t: real, es: seq<Event>, n: nat)
    requires c.Sane() && c.multiplier == 2.0
    requires NoReset(es) && Sequential(c, t, es)
    requires n < |Exec(c, Start(c, t), es).openings|
    ensures var openings := Exec(c, Start(c, t), es).openings;
            openings[n] >= openings[0] + TotalBackoff(c, n) as real
  {
    ExecElapsed(c, t, es);
  }
}
