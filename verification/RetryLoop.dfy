/** StreamWorker._stream_loop composed with the breaker and the error decisions, in the
    situation where no fetch yields a comment and each one raises. The environment picks
    every error, every duration, and when the stop event is seen.
  */
module RetryLoop {
  import opened Common
  import opened B = CircuitBreakers
  import E = ErrorHandling

  /** One round: is the stop event set at its start; what the fetch raises and how long it
      runs; how long recording the error takes, and whether that raises as well. */
  datatype Attempt = Attempt(stop: bool, error: E.Error, fetch: real, record: real, recordRaises: bool) {
    /** The loop comes back for another call after this round. */
    predicate GoesOn() { !stop && !recordRaises && E.Continues(error) }

    /** The time from the failure to the next call. */
    function Gap(): real {
      match E.Decide(error)
      case SleepThenRetry(seconds) => record + seconds as real
      case _ => record
    }
  }

  /** The window the breaker announces when this attempt's failure is the first to open it. */
  function FirstWindow(c: Config, a: Attempt): int {
    Escalated(c, c.recoveryTimeout, E.GetBackoffDuration(a.error))
  }

  datatype Exit = StopSeen | TurnedAway | Ended(error: E.Error) | RecordingRaised

  function AfterRound(c: Config, b: Breaker, now: real, a: Attempt): (Breaker, real) {
    var failedAt := now + a.fetch;
    (Failed(c, Admitted(b, now), failedAt, E.GetBackoffDuration(a.error)), failedAt + a.Gap())
  }

  /** Breaker and clock when the call after n rounds is made. */
  function AfterRounds(c: Config, start: real, env: nat -> Attempt, n: nat): (Breaker, real) {
    if n == 0 then (Initial(c), start) else
    var (b, now) := AfterRounds(c, start, env, n - 1);
    AfterRound(c, b, now, env(n - 1))
  }

  lemma {:induction false} BelowThreshold(c: Config, start: real, env: nat -> Attempt, n: nat)
    requires c.Sane() && n < c.failureThreshold
    ensures var b := AfterRounds(c, start, env, n).0;
            b.state == Closed && b.failureCount == n && b.successCount == 0 && b.backoffSeconds == c.recoveryTimeout
  {
    if n > 0 {
      BelowThreshold(c, start, env, n - 1);
    }
  }

  /** After failureThreshold failing rounds the breaker is open, and it turns the next call away
      if and only if less than its full backoff has passed since the last failure. */
  lemma NextCallRefusedIff(c: Config, start: real, env: nat -> Attempt)
    requires c.Sane()
    ensures var (b, now) := AfterRounds(c, start, env, c.failureThreshold);
            var last := env(c.failureThreshold - 1);
            && b.state == Open
            && (!Admits(b, now) <==> last.Gap() < FirstWindow(c, last) as real)
  {
    BelowThreshold(c, start, env, c.failureThreshold - 1);
  }

  /** The last failure before a refusal comes too early for a probe. */
  predicate InTime(c: Config, env: nat -> Attempt)
    requires c.failureThreshold >= 1
  {
    env(c.failureThreshold - 1).Gap() < FirstWindow(c, env(c.failureThreshold - 1)) as real
  }

  /** The breaker as each call of the loop finds it: closed, then open, and then it turns the call away if that
      comes too early. */
  lemma CallFinds(c: Config, start: real, env: nat -> Attempt, n: nat)
    requires c.Sane()
    ensures var (b, now) := AfterRounds(c, start, env, n);
            && (n < c.failureThreshold ==> b.state == Closed)
            && (n == c.failureThreshold ==> b.state == Open && (!Admits(b, now) <==> InTime(c, env)))
  {
    if n == c.failureThreshold {
      NextCallRefusedIff(c, start, env);
    } else if n < c.failureThreshold {
      BelowThreshold(c, start, env, n);
    }
  }

  /** The worker's breaker: 120 s of backoff against at most 60 s of rate-limit sleep, so
      recording an error in under 60 s always keeps the sixth call out. */
  lemma WorkerWindow(a: Attempt)
    ensures FirstWindow(DEFAULTS, a) == 120
    ensures a.record < 60.0 ==> a.Gap() < FirstWindow(DEFAULTS, a) as real
    ensures a.error.inBackoff && !a.error.inFatal && a.record >= 60.0 ==> a.Gap() >= FirstWindow(DEFAULTS, a) as real
  {
    EscalatedDoubles(DEFAULTS, 60, E.GetBackoffDuration(a.error));
  }

  class StreamLoop {
    const breaker: CircuitBreaker
    var now: real
    ghost var fetches: nat
    ghost var probed: bool

    constructor (breaker: CircuitBreaker, now: real)
      ensures this.breaker == breaker && this.now == now && fetches == 0 && !probed
    {
      this.breaker := breaker;
      this.now := now;
      fetches := 0;
      probed := false;
    }

    /** _handle_error: None when the loop goes on. */
    method HandleError(error: E.Error, record: real, recordRaises: bool) returns (r: Option<Exit>)
      modifies this`now
      ensures r.None? <==> !recordRaises && !error.inFatal && (error.inBackoff || error.inRetryable)
      ensures r.Some? ==> r.value == if recordRaises then RecordingRaised else Ended(error)
      ensures r.None? ==> now == old(now) + record + if error.inBackoff then 60.0 else 0.0
    {
      now := now + record;
      if recordRaises { return Some(RecordingRaised); }
      if E.ShouldAbandonStream(error) { return Some(Ended(error)); }
      if E.ShouldRetryWithBackoff(error) {
        now := now + E.GetBackoffDuration(error) as real;
        return None;
      }
      if E.ShouldRetryImmediately(error) { return None; }
      return Some(Ended(error));
    }

    /** One round after the stop check: the call through the breaker and the error handling. */
    method Round(a: Attempt) returns (r: Option<Exit>)
      requires breaker.config.Sane()
      modifies this, breaker
      ensures !Admits(old(breaker.View()), old(now)) <==> r == Some(TurnedAway)
      ensures r == Some(TurnedAway) ==>
                && breaker.View() == old(breaker.View())
                && fetches == old(fetches)
                && probed == old(probed)
      ensures r != Some(TurnedAway) ==>
                && breaker.View() == AfterRound(breaker.config, old(breaker.View()), old(now), a).0
                && fetches == old(fetches) + 1
                && probed == (old(probed) || old(breaker.state) == Open)
      ensures r.None? ==> !a.recordRaises && E.Continues(a.error)
      ensures r.None? ==> now == AfterRound(breaker.config, old(breaker.View()), old(now), a).1
      ensures r.None? ==> now == old(now) + a.fetch + a.record + if a.error.inBackoff then 60.0 else 0.0
      ensures r.Some? && r.value.Ended? ==> r.value.error == a.error && !E.Continues(a.error)
      ensures r.Some? && r.value.RecordingRaised? ==> a.recordRaises
      ensures r != Some(StopSeen) && breaker.state != HalfOpen
    {
      var wasOpen := breaker.state == Open;
      var call := breaker.Call(now, 0, now + a.fetch, Raised(a.error));
      if call.Refused? {
        // A RuntimeError outside every class tuple: whether or not it gets recorded, the loop ends.
        var out := HandleError(E.CIRCUIT_OPEN_ERROR, a.record, a.recordRaises);
        assert out.Some?;
        return Some(TurnedAway);
      }
      probed := probed || wasOpen;
      fetches := fetches + 1;
      now := now + a.fetch;
      r := HandleError(a.error, a.record, a.recordRaises);
    }

    /** The loop until it ends; `limit` is a round at which a stop request is seen, and need not exist if the call
        after failureThreshold failures comes before the backoff has passed (no other round's timing matters).
        In that case the loop ends after at most failureThreshold fetches, never probes (HALF_OPEN is
        unreachable), and ends by the breaker's refusal exactly when all of the first failureThreshold
        rounds would have gone on. In any case no probe and no refusal comes before failureThreshold fetches. */
    method Run(env: nat -> Attempt, ghost limit: nat) returns (exit: Exit)
      requires breaker.config.Sane() && breaker.View() == Initial(breaker.config)
      requires fetches == 0 && !probed
      requires InTime(breaker.config, env) || env(limit).stop
      modifies this, breaker
      ensures InTime(breaker.config, env) ==>
                && fetches <= breaker.config.failureThreshold
                && !probed
                && (exit.TurnedAway? <==>
                      && (forall n :: 0 <= n < breaker.config.failureThreshold ==> env(n).GoesOn())
                      && !env(breaker.config.failureThreshold).stop)
      ensures breaker.state != HalfOpen
      ensures probed ==> fetches > breaker.config.failureThreshold
      ensures exit.TurnedAway? ==>
                var (b, t) := AfterRounds(breaker.config, old(now), env, fetches);
                && fetches >= breaker.config.failureThreshold
                && !Admits(b, t)
                && (forall n :: 0 <= n < fetches ==> env(n).GoesOn())
      ensures exit.StopSeen? ==> env(fetches).stop && forall n :: 0 <= n < fetches ==> env(n).GoesOn()
      ensures exit.Ended? ==> fetches > 0 && exit.error == env(fetches - 1).error && !E.Continues(exit.error)
    {
      ghost var c, start := breaker.config, now;
      ghost var bound := if InTime(c, env) then c.failureThreshold else limit;
      var n: nat := 0;
      while true
        invariant n == fetches <= bound
        invariant probed ==> n > c.failureThreshold
        invariant InTime(c, env) ==> !probed
        invariant breaker.state != HalfOpen
        invariant breaker.View() == AfterRounds(c, start, env, n).0 && now == AfterRounds(c, start, env, n).1
        invariant forall k :: 0 <= k < n ==> env(k).GoesOn()
        decreases bound - n
      {
        CallFinds(c, start, env, n);
        if env(n).stop { return StopSeen; }
        var out := Round(env(n));
        if out.Some? { return out.value; }
        n := n + 1;
      }
    }
  }
}
