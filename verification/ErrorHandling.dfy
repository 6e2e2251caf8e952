/** Error classes and recovery decisions of stream/error_handler.py.

    An exception is known to this code only through isinstance questions about the
    three class tuples, so an error is modelled as the answers to those questions.
    They may overlap: a rate-limit error is also a response error, and a fatal
    response error is in the retryable tuple too.
  */
module ErrorHandling {

  datatype Error = Error(inFatal: bool, inBackoff: bool, inRetryable: bool)

  /** KafkaDeliveryError: listed as fatal, and a plain RuntimeError otherwise. */
  const KAFKA_DELIVERY_ERROR := Error(true, false, false)

  /** The breaker's refusal is a plain RuntimeError, which is in no tuple. */
  const CIRCUIT_OPEN_ERROR := Error(false, false, false)

  const RATE_LIMIT_SECONDS := 60
  const SHORT_BACKOFF_SECONDS := 5

  predicate IsRetryable(e: Error) { !e.inFatal && e.inRetryable }

  predicate ShouldBackoff(e: Error) { e.inBackoff }

  function GetBackoffDuration(e: Error): int {
    if e.inBackoff then RATE_LIMIT_SECONDS else SHORT_BACKOFF_SECONDS
  }

  predicate ShouldRetryImmediately(e: Error) { IsRetryable(e) && !ShouldBackoff(e) }

  predicate ShouldRetryWithBackoff(e: Error) { ShouldBackoff(e) }

  predicate ShouldAbandonStream(e: Error) { e.inFatal }

  datatype Recovery = Abandon | SleepThenRetry(seconds: int) | RetryNow | GiveUp

  /** The decision of StreamWorker._handle_error, in its order of questions. */
  function Decide(e: Error): Recovery {
    if ShouldAbandonStream(e) then Abandon
    else if ShouldRetryWithBackoff(e) then SleepThenRetry(GetBackoffDuration(e))
    else if ShouldRetryImmediately(e) then RetryNow
    else GiveUp
  }

  /** Whether the stream loop goes on after this error. */
  predicate Continues(e: Error) {
    Decide(e).SleepThenRetry? || Decide(e).RetryNow?
  }
}
