/** The data plane and the shutdown of stream/worker.py.

    The coroutines of one worker run in one event loop, so what happens between two awaits
    is one step. The machine below has the stream task and the watchdog task with their
    await points, Kafka's delivery callbacks, and `run` with its cancellation, drain, final
    checkpoint and release; a run is any sequence of their steps. The environment picks the comments,
    what the serializer and the producer say, every delivery outcome, every exception, every
    cancellation, and what others do to the leases. A task with a cancellation pending gets
    CancelledError at its await point, and the try statements around that point decide what
    becomes of it. History fields record what was produced, what became of it and what was saved.
  */
module Worker {
  import opened Common
  import E = ErrorHandling
  import Lease

  type CommentId = string

  datatype Delivery = Pending | Acked | Failed

  /** One batch checkpoint: the comment, how many messages had been produced by then, and
      whether the write returned without an error. */
  datatype Save = Save(id: CommentId, upto: nat, stored: bool)

  /** comments_since_checkpoint and _delivery_errors (the failed messages' numbers), then history:
      the comment of every message handed to the producer, its fate, and the batch checkpoints. */
  datatype Data = Data(
    since: int, errors: seq<nat>, produced: seq<CommentId>, outcome: seq<Delivery>, saves: seq<Save>)

  const NO_DATA := Data(0, [], [], [], [])

  function Enqueued(d: Data, id: CommentId): Data {
    d.(produced := d.produced + [id], outcome := d.outcome + [Pending])
  }

  /** _on_delivery for message n. */
  function Delivered(d: Data, n: nat, ok: bool): Data
    requires n < |d.outcome|
  {
    if ok then d.(outcome := d.outcome[n := Acked])
    else d.(outcome := d.outcome[n := Failed], errors := d.errors + [n])
  }

  predicate AllServed(d: Data) { Pending !in d.outcome }

  /** A flush leaves no message behind only if every callback has been served. */
  predicate FlushPossible(d: Data, remaining: nat) {
    remaining == 0 ==> AllServed(d)
  }

  predicate FlushPasses(d: Data, remaining: nat) {
    remaining == 0 && d.errors == []
  }

  function Saved(d: Data, id: CommentId, stored: bool): Data {
    d.(since := 0, saves := d.saves + [Save(id, |d.produced|, stored)])
  }

  // ---------------------------------------------------------------------------
  // The try statements
  // ---------------------------------------------------------------------------

  /** Where the stream task waits. `last` is the checkpoint's comment id read by this fetch. */
  datatype Pc =
    | Top
    | Opening
    | Listening(last: Option<CommentId>)
    | Yielded(last: Option<CommentId>, comment: Option<CommentId>)
    | Reporting(last: Option<CommentId>, id: CommentId)
    | Rejecting(last: Option<CommentId>)
    | Flushing(last: Option<CommentId>, id: CommentId)
    | Saving(last: Option<CommentId>, id: CommentId)
    | Closing
    | Handling(error: E.Error)
    | Sleeping
    | Ended

  /** What can be thrown at an await: CancelledError, which is no Exception; KafkaDeliveryError; any other. */
  datatype Thrown = Cancelled | KafkaFailure | Other(error: E.Error)

  // One function for each try statement of the stream task: the next await point when its body throws.

  /** _stream_loop: `except CancelledError: raise`, and `except Exception` starts the error handling. */
  function FromLoop(t: Thrown): Pc {
    match t
    case Cancelled => Ended
    case KafkaFailure => Handling(E.KAFKA_DELIVERY_ERROR)
    case Other(error) => Handling(error)
  }

  /** CircuitBreaker.call: `except Exception` records the failure and re-raises. */
  function FromCall(t: Thrown): Pc { FromLoop(t) }

  /** _fetch_and_process_comments: both clauses re-raise, `except Exception` by way of _handle_fetch_exception. */
  function FromFetch(t: Thrown): Pc { FromCall(t) }

  /** _process_comment: cancellation and KafkaDeliveryError are re-raised, anything else rejects the comment. */
  function FromComment(last: Option<CommentId>, t: Thrown): Pc {
    if t.Other? then Rejecting(last) else FromFetch(t)
  }

  /** _flush_delivery_batch around the flush: `except Exception` turns it into KafkaDeliveryError. */
  function FromFlush(last: Option<CommentId>, t: Thrown): Pc {
    FromComment(last, if t.Cancelled? then t else KafkaFailure)
  }

  /** _save_checkpoint_for_comment_id: `except Exception` logs, and processing goes on. */
  function FromSave(last: Option<CommentId>, t: Thrown): Pc {
    if t.Cancelled? then FromComment(last, t) else Listening(last)
  }

  /** Where an exception thrown at the await point leads. Error handling is outside every try. */
  function ThrownAt(pc: Pc, t: Thrown): Pc {
    match pc
    case Top => FromLoop(t)
    case Opening => FromCall(t)
    case Listening(_) => FromFetch(t)
    case Yielded(_, _) => FromFetch(t)
    case Reporting(_, _) => FromFetch(t)
    case Rejecting(_) => FromFetch(t)
    case Flushing(last, _) => FromFlush(last, t)
    case Saving(last, _) => FromSave(last, t)
    case Closing => FromCall(t)
    case Handling(_) => Ended
    case Sleeping => Ended
    case Ended => Ended
  }

  /** Wherever the stream task waits, no handler holds a cancellation up. */
  lemma CancellationEndsTheStream(pc: Pc)
    ensures ThrownAt(pc, Cancelled) == Ended
  {
  }

  /** A checkpoint write that fails raises nothing: the loop goes on to the next comment. */
  lemma FailedSaveIsSwallowed(last: Option<CommentId>, id: CommentId, t: Thrown)
    ensures ThrownAt(Saving(last, id), t) == Listening(last) <==> !t.Cancelled?
    ensures !t.Cancelled? ==> ThrownAt(Flushing(last, id), t) == Handling(E.KAFKA_DELIVERY_ERROR)
  {
  }

  // ---------------------------------------------------------------------------
  // The machine
  // ---------------------------------------------------------------------------

  /** Where the watchdog task waits. */
  datatype Watch = Pausing | Refreshing | Beating | Gone

  /** Where `run` is. */
  datatype Stage = Waiting | Draining | FinalSave | Releasing | Finished

  datatype Config = Config(interval: int, sub: Lease.Subreddit, token: Lease.Token)

  const LEASE_TTL := 60.0

  datatype Worker = Worker(
    pc: Pc, data: Data, watch: Watch, stop: bool,
    cancelStream: bool, cancelWatch: bool,  // cancellations requested by `run`
    stage: Stage, shutdown: bool,
    leases: Lease.Leases,                   // the server's
    atStop: Option<nat>,                    // messages produced when the stop event was set
    atRelease: Option<nat>)                 // messages produced when the release was attempted

  const INITIAL := Worker(Top, NO_DATA, Pausing, false, false, false, Waiting, false, map[], None, None)

  /** What comes of building, serializing and producing one comment. After an enqueue the
      poll can still raise. */
  datatype Attempt = Rejected(error: E.Error) | ProduceRaises | PollRaises | Accepted

  datatype StreamEvent =
    | Call(admitted: bool)                 // stop check, then the breaker
    | Opened(last: Option<CommentId>)      // subreddit and checkpoint are there
    | Comment(comment: Option<CommentId>)  // the stream yields
    | StreamEnds
    | Resume                               // after sleep(0)
    | Process(attempt: Attempt)            // after record_success
    | RejectRecorded
    | FlushReturns(remaining: nat)
    | SaveReturns
    | Closed
    | ErrorRecorded
    | Woken
    | Raise(error: E.Error)                // the await raises
    | Interrupted                          // the await throws the pending CancelledError

  datatype WatchEvent =
    | WakesUp
    | Answer(ok: bool)                     // of the refresh
    | RefreshRaises                        // timeout, or any other exception
    | BeatEnds                             // the heartbeat returns or raises
    | ScriptRuns(now: real)                // the server runs a refresh, however late
    | WatchInterrupted

  datatype MainEvent =
    | Cancel
    | Notice                               // one of the tasks is done
    | Drained                              // gather returns
    | FinalSaved
    | Release(now: real)

  datatype Event =
    | StreamTask(s: StreamEvent)
    | WatchTask(k: WatchEvent)
    | MainTask(m: MainEvent)
    | Callback(message: nat, ok: bool)
    | Elsewhere(leases: Lease.Leases)      // whatever others, and time, do to the leases

  /** _process_comment up to its first await: what it does to the data, and where it waits next. */
  function ProcessedData(d: Data, last: Option<CommentId>, id: CommentId, attempt: Attempt): Data {
    if last == Some(id) then d else
    match attempt
    case Rejected(_) => d
    case ProduceRaises => d
    case PollRaises => Enqueued(d, id)
    case Accepted => Enqueued(d, id).(since := d.since + 1)
  }

  function ProcessedPc(interval: int, d: Data, last: Option<CommentId>, id: CommentId, attempt: Attempt): Pc {
    if last == Some(id) then Listening(last) else
    match attempt
    case Rejected(error) => FromComment(last, Other(error))
    case ProduceRaises => FromComment(last, KafkaFailure)
    case PollRaises => FromComment(last, KafkaFailure)
    case Accepted => if d.since + 1 >= interval then Flushing(last, id) else Listening(last)
  }

  /** Where an error leaves the loop, once it has been recorded. */
  function Recovered(error: E.Error): Pc {
    match E.Decide(error)
    case SleepThenRetry(_) => Sleeping
    case RetryNow => Top
    case _ => Ended
  }

  predicate MayRaise(pc: Pc) {
    pc.Opening? || pc.Listening? || pc.Rejecting? || pc.Flushing? || pc.Saving? || pc.Handling?
  }

  /** The stream task's next await after the event; an event it does not wait for does nothing. */
  function NextPc(interval: int, w: Worker, s: StreamEvent): Pc {
    var pc := w.pc;
    match s
    case Call(admitted) =>
      if !pc.Top? then pc
      else if w.stop then Ended else if admitted then Opening else FromLoop(Other(E.CIRCUIT_OPEN_ERROR))
    case Opened(last) => if pc.Opening? then Listening(last) else pc
    case Comment(c) => if !pc.Listening? then pc else if w.stop then Closing else Yielded(pc.last, c)
    case StreamEnds => if pc.Listening? then Closing else pc
    case Resume =>
      if !pc.Yielded? then pc
      else if pc.comment.None? then Listening(pc.last) else Reporting(pc.last, pc.comment.value)
    case Process(attempt) => if pc.Reporting? then ProcessedPc(interval, w.data, pc.last, pc.id, attempt) else pc
    case RejectRecorded => if pc.Rejecting? then Listening(pc.last) else pc
    case FlushReturns(remaining) =>
      if !pc.Flushing? || !FlushPossible(w.data, remaining) then pc
      else if FlushPasses(w.data, remaining) then Saving(pc.last, pc.id) else FromComment(pc.last, KafkaFailure)
    case SaveReturns => if pc.Saving? then Listening(pc.last) else pc
    case Closed => if pc.Closing? then Top else pc
    case ErrorRecorded => if pc.Handling? then Recovered(pc.error) else pc
    case Woken => if pc.Sleeping? then Top else pc
    case Raise(error) => if MayRaise(pc) then ThrownAt(pc, Other(error)) else pc
    case Interrupted => pc
  }

  /** What the stream task does to the data. A flush that returns takes the error list whatever follows, and a
      save counts as an attempt whatever comes of it. */
  function NextData(w: Worker, s: StreamEvent): Data {
    match s
    case Process(attempt) => if w.pc.Reporting? then ProcessedData(w.data, w.pc.last, w.pc.id, attempt) else w.data
    case FlushReturns(remaining) =>
      if w.pc.Flushing? && FlushPossible(w.data, remaining) then w.data.(errors := []) else w.data
    case SaveReturns => if w.pc.Saving? then Saved(w.data, w.pc.id, true) else w.data
    case Raise(_) => if w.pc.Saving? then Saved(w.data, w.pc.id, false) else w.data
    case _ => w.data
  }

  function StreamStep(interval: int, w: Worker, s: StreamEvent): Worker {
    if !w.cancelStream then w.(pc := NextPc(interval, w, s), data := NextData(w, s))
    else if s.Interrupted? then w.(pc := ThrownAt(w.pc, Cancelled))
    else w
  }

  /** _record_lock_loss, and the LockLostError that ends the watchdog. */
  function LockLost(w: Worker): Worker {
    w.(watch := Gone, stop := true, atStop := if w.stop then w.atStop else Some(|w.data.produced|))
  }

  /** The try around the refresh re-raises a cancellation, and the one around the heartbeat does not catch it. */
  function WatchStep(c: Config, w: Worker, k: WatchEvent): Worker {
    match k
    case ScriptRuns(now) => w.(leases := Lease.Refreshed(w.leases, c.sub, c.token, now, LEASE_TTL))
    case WatchInterrupted => if w.cancelWatch then w.(watch := Gone) else w
    case WakesUp => if !w.cancelWatch && w.watch.Pausing? then w.(watch := Refreshing) else w
    case Answer(ok) =>
      if w.cancelWatch || !w.watch.Refreshing? then w else if ok then w.(watch := Beating) else LockLost(w)
    case RefreshRaises => if w.cancelWatch || !w.watch.Refreshing? then w else LockLost(w)
    case BeatEnds => if !w.cancelWatch && w.watch.Beating? then w.(watch := Pausing) else w
  }

  /** Leaving the wait: both tasks are cancelled unless they are done. */
  function Drain(w: Worker, shutdown: bool): Worker {
    w.(stage := Draining, shutdown := shutdown, cancelStream := !w.pc.Ended?, cancelWatch := !w.watch.Gone?)
  }

  /** A cancellation during the drain does not shorten it, since gather waits for both tasks all the same; one that
      comes later ends `run` before the release. */
  function MainStep(c: Config, w: Worker, m: MainEvent): Worker {
    match m
    case Cancel =>
      if w.stage.Waiting? then Drain(w, true)
      else if w.stage.FinalSave? || w.stage.Releasing? then w.(stage := Finished)
      else w
    case Notice => if w.stage.Waiting? && (w.watch.Gone? || w.pc.Ended?) then Drain(w, w.watch.Gone?) else w
    case Drained =>
      if w.stage.Draining? && w.pc.Ended? && w.watch.Gone?
      then w.(stage := if w.shutdown then FinalSave else Releasing) else w
    case FinalSaved => if w.stage.FinalSave? then w.(stage := Releasing) else w
    case Release(now) =>
      if w.stage.Releasing?
      then w.(stage := Finished, atRelease := Some(|w.data.produced|),
              leases := Lease.Released(w.leases, c.sub, c.token, now))
      else w
  }

  function Step(c: Config, w: Worker, e: Event): Worker {
    match e
    case StreamTask(s) => StreamStep(c.interval, w, s)
    case WatchTask(k) => WatchStep(c, w, k)
    case MainTask(m) => MainStep(c, w, m)
    case Callback(n, ok) =>
      if n < |w.data.outcome| && w.data.outcome[n] == Pending then w.(data := Delivered(w.data, n, ok)) else w
    case Elsewhere(leases) => w.(leases := leases)
  }

  function Exec(c: Config, w: Worker, es: seq<Event>): Worker {
    if es == [] then w else Step(c, Exec(c, w, es[..|es| - 1]), es[|es| - 1])
  }

  function Run(c: Config, es: seq<Event>): Worker { Exec(c, INITIAL, es) }

  // ---------------------------------------------------------------------------
  // The invariant
  // ---------------------------------------------------------------------------

  /** The stream task can still come back for another comment. */
  predicate Live(w: Worker) {
    !w.pc.Ended? && !(w.pc.Handling? && w.pc.error.inFatal)
  }

  /** Everything up to and including this checkpoint's comment has been delivered. */
  ghost predicate Covered(d: Data, s: Save) {
    && 1 <= s.upto <= |d.produced| == |d.outcome|
    && d.produced[s.upto - 1] == s.id
    && forall n :: 0 <= n < s.upto ==> d.outcome[n] == Acked
  }

  ghost predicate DeliveryInv(w: Worker) {
    var d := w.data;
    && |d.outcome| == |d.produced|
    && (forall k :: 0 <= k < |d.saves| ==> Covered(d, d.saves[k]))
    && (Live(w) && d.errors == [] ==> Failed !in d.outcome)
    && (w.pc.Flushing? || w.pc.Saving? ==> d.produced != [] && d.produced[|d.produced| - 1] == w.pc.id)
    && (w.pc.Saving? ==> forall n :: 0 <= n < |d.outcome| ==> d.outcome[n] == Acked)
  }

  ghost predicate BatchInv(interval: int, w: Worker) {
    var d := w.data;
    && (forall k :: 0 <= k < |d.saves| ==> d.saves[k].upto == interval * (k + 1))
    && |d.produced| <= interval * |d.saves| + interval
    && (Live(w) ==>
          && |d.produced| == interval * |d.saves| + d.since
          && (if w.pc.Flushing? || w.pc.Saving? then d.since == interval else 0 <= d.since < interval))
  }

  /** `run` passes the drain only when both tasks are over, and meanwhile they are being cancelled. */
  ghost predicate DrainInv(w: Worker) {
    && (w.stage.Waiting? ==> !w.cancelStream && !w.cancelWatch)
    && (w.stage.Draining? ==> (w.cancelStream || w.pc.Ended?) && (w.cancelWatch || w.watch.Gone?))
    && (!w.stage.Waiting? && !w.stage.Draining? ==> w.pc.Ended? && w.watch.Gone?)
    && (w.atRelease.Some? ==> w.stage.Finished? && w.atRelease.value == |w.data.produced|)
  }

  ghost predicate StopInv(w: Worker) {
    && (w.stop <==> w.atStop.Some?)
    && (w.stop ==> |w.data.produced| + (if w.pc.Yielded? || w.pc.Reporting? then 1 else 0) <= w.atStop.value + 1)
  }

  lemma CallbackKeepsDelivery(w: Worker, n: nat, ok: bool)
    requires DeliveryInv(w) && n < |w.data.outcome| && w.data.outcome[n] == Pending
    ensures DeliveryInv(w.(data := Delivered(w.data, n, ok)))
  {
    var d := Delivered(w.data, n, ok);
    forall k | 0 <= k < |d.saves| ensures Covered(d, d.saves[k]) {
      assert Covered(w.data, d.saves[k]);
    }
  }

  lemma EnqueueKeepsCovered(d: Data, id: CommentId)
    requires |d.outcome| == |d.produced| && forall k :: 0 <= k < |d.saves| ==> Covered(d, d.saves[k])
    ensures forall k :: 0 <= k < |d.saves| ==> Covered(Enqueued(d, id), d.saves[k])
    ensures Failed in Enqueued(d, id).outcome ==> Failed in d.outcome
  {
    forall k | 0 <= k < |d.saves| ensures Covered(Enqueued(d, id), d.saves[k]) {
      assert Covered(d, d.saves[k]);
    }
  }

  lemma FlushKeepsDelivery(interval: int, w: Worker, remaining: nat)
    requires DeliveryInv(w) && w.pc.Flushing? && !w.cancelStream && FlushPossible(w.data, remaining)
    ensures DeliveryInv(StreamStep(interval, w, FlushReturns(remaining)))
  {
    var d := w.data;
    if FlushPasses(d, remaining) {
      forall n | 0 <= n < |d.outcome| ensures d.outcome[n] == Acked {
        assert d.outcome[n] in d.outcome;
      }
    }
    forall k | 0 <= k < |d.saves| ensures Covered(d.(errors := []), d.saves[k]) {
      assert Covered(d, d.saves[k]);
    }
  }

  lemma SaveKeepsDelivery(w: Worker, stored: bool)
    requires DeliveryInv(w) && w.pc.Saving?
    ensures DeliveryInv(w.(pc := Listening(w.pc.last), data := Saved(w.data, w.pc.id, stored)))
  {
    var d := Saved(w.data, w.pc.id, stored);
    forall k | 0 <= k < |d.saves| ensures Covered(d, d.saves[k]) {
      if k < |w.data.saves| { assert Covered(w.data, d.saves[k]); }
    }
  }

  lemma ProcessKeepsDelivery(interval: int, w: Worker, attempt: Attempt)
    requires DeliveryInv(w) && w.pc.Reporting? && !w.cancelStream
    ensures DeliveryInv(StreamStep(interval, w, Process(attempt)))
  {
    EnqueueKeepsCovered(w.data, w.pc.id);
    var d := Enqueued(w.data, w.pc.id).(since := w.data.since + 1);
    forall k | 0 <= k < |d.saves| ensures Covered(d, d.saves[k]) {
      assert Covered(Enqueued(w.data, w.pc.id), d.saves[k]);
    }
  }

  /** A step of the stream task that touches the data. */
  predicate Works(w: Worker, s: StreamEvent) {
    && !w.cancelStream
    && match s
       case Process(_) => w.pc.Reporting?
       case FlushReturns(remaining) => w.pc.Flushing? && FlushPossible(w.data, remaining)
       case SaveReturns => w.pc.Saving?
       case Raise(_) => w.pc.Saving?
       case _ => false
  }

  /** The other steps start no flush or save, and revive nothing. */
  lemma QuietStreamStep(interval: int, w: Worker, s: StreamEvent)
    requires !Works(w, s)
    ensures var v := StreamStep(interval, w, s);
            && v.data == w.data
            && (v.pc.Flushing? || v.pc.Saving? ==> v.pc == w.pc)
            && (Live(v) ==> Live(w))
            && (w.pc.Flushing? || w.pc.Saving? ==> v.pc == w.pc || !Live(v))
  {
  }

  lemma WorkKeepsDelivery(interval: int, w: Worker, s: StreamEvent)
    requires DeliveryInv(w) && Works(w, s)
    ensures DeliveryInv(StreamStep(interval, w, s))
  {
    match s
    case Process(attempt) => ProcessKeepsDelivery(interval, w, attempt);
    case FlushReturns(remaining) => FlushKeepsDelivery(interval, w, remaining);
    case SaveReturns => SaveKeepsDelivery(w, true);
    case Raise(_) => SaveKeepsDelivery(w, false);
  }

  lemma QuietKeepsDelivery(interval: int, w: Worker, s: StreamEvent)
    requires DeliveryInv(w) && !Works(w, s)
    ensures DeliveryInv(StreamStep(interval, w, s))
  {
    QuietStreamStep(interval, w, s);
  }

  /** Everyone but the stream task and the callbacks leaves stream task and data alone. */
  lemma OthersKeepData(c: Config, w: Worker, e: Event)
    requires !e.StreamTask? && !e.Callback?
    ensures Step(c, w, e).data == w.data && Step(c, w, e).pc == w.pc
  {
  }

  lemma OthersKeepStage(c: Config, w: Worker, e: Event)
    requires !e.MainTask?
    ensures var v := Step(c, w, e);
            && v.stage == w.stage && v.cancelStream == w.cancelStream && v.cancelWatch == w.cancelWatch
            && v.atRelease == w.atRelease
  {
  }

  lemma StepDelivery(c: Config, w: Worker, e: Event)
    requires DeliveryInv(w)
    ensures DeliveryInv(Step(c, w, e))
  {
    match e
    case StreamTask(s) =>
      if Works(w, s) { WorkKeepsDelivery(c.interval, w, s); } else { QuietKeepsDelivery(c.interval, w, s); }
    case Callback(n, ok) =>
      if n < |w.data.outcome| && w.data.outcome[n] == Pending { CallbackKeepsDelivery(w, n, ok); }
    case _ => OthersKeepData(c, w, e);
  }

  lemma WorkKeepsBatch(interval: int, w: Worker, s: StreamEvent)
    requires interval > 0 && BatchInv(interval, w) && Works(w, s)
    ensures BatchInv(interval, StreamStep(interval, w, s))
  {
  }

  lemma StepBatch(c: Config, w: Worker, e: Event)
    requires c.interval > 0 && BatchInv(c.interval, w)
    ensures BatchInv(c.interval, Step(c, w, e))
  {
    match e
    case StreamTask(s) =>
      if Works(w, s) { WorkKeepsBatch(c.interval, w, s); } else { QuietStreamStep(c.interval, w, s); }
    case Callback(_, _) =>
    case _ => OthersKeepData(c, w, e);
  }

  lemma StreamKeepsStop(interval: int, w: Worker, s: StreamEvent)
    requires StopInv(w)
    ensures StopInv(StreamStep(interval, w, s))
  {
  }

  lemma StepStop(c: Config, w: Worker, e: Event)
    requires StopInv(w)
    ensures StopInv(Step(c, w, e))
  {
    match e
    case StreamTask(s) => StreamKeepsStop(c.interval, w, s);
    case Callback(_, _) =>
    case _ => OthersKeepData(c, w, e);
  }

  /** An ended stream task does nothing more, and an interrupted one has ended. */
  lemma StreamKeepsDrain(interval: int, w: Worker, s: StreamEvent)
    requires DrainInv(w)
    ensures DrainInv(StreamStep(interval, w, s))
  {
    CancellationEndsTheStream(w.pc);
  }

  lemma StepDrain(c: Config, w: Worker, e: Event)
    requires DrainInv(w)
    ensures DrainInv(Step(c, w, e))
  {
    match e
    case StreamTask(s) => StreamKeepsDrain(c.interval, w, s);
    case WatchTask(_) =>
      OthersKeepStage(c, w, e);
      OthersKeepData(c, w, e);
    case MainTask(_) => OthersKeepData(c, w, e);
    case _ =>
  }

  lemma {:induction false} RunInvariants(c: Config, es: seq<Event>)
    requires c.interval > 0
    ensures DeliveryInv(Run(c, es)) && BatchInv(c.interval, Run(c, es)) && StopInv(Run(c, es)) && DrainInv(Run(c, es))
  {
    if es != [] {
      var before := es[..|es| - 1];
      RunInvariants(c, before);
      StepDelivery(c, Run(c, before), es[|es| - 1]);
      StepBatch(c, Run(c, before), es[|es| - 1]);
      StepStop(c, Run(c, before), es[|es| - 1]);
      StepDrain(c, Run(c, before), es[|es| - 1]);
    }
  }

  // ---------------------------------------------------------------------------
  // What becomes of a comment, an error and a stop request, from await to await
  // ---------------------------------------------------------------------------

  /** One event of the stream task after the other. */
  function Two(c: Config, w: Worker, s: StreamEvent, t: StreamEvent): Worker {
    Step(c, Step(c, w, StreamTask(s)), StreamTask(t))
  }

  /** Whatever is wrong with a comment before it reaches the producer: it is recorded and skipped. */
  lemma RejectedIsSkipped(c: Config, w: Worker, error: E.Error)
    requires w.pc.Reporting? && w.pc.last != Some(w.pc.id) && !w.cancelStream
    ensures Two(c, w, Process(Rejected(error)), RejectRecorded) == w.(pc := Listening(w.pc.last))
    ensures Two(c, w, Process(Rejected(error)), Raise(error)).pc == Handling(error)
  {
  }

  /** The comment of the checkpoint that this fetch started from is skipped. */
  lemma DuplicateIsSkipped(c: Config, w: Worker, attempt: Attempt)
    requires w.pc.Reporting? && w.pc.last == Some(w.pc.id) && !w.cancelStream
    ensures Step(c, w, StreamTask(Process(attempt))) == w.(pc := Listening(w.pc.last))
  {
  }

  /** The producer's own errors end the stream, with nothing counted and nothing saved. */
  lemma ProducerErrorEndsTheLoop(c: Config, w: Worker, attempt: Attempt, recorded: StreamEvent)
    requires w.pc.Reporting? && w.pc.last != Some(w.pc.id) && !w.cancelStream
    requires attempt == ProduceRaises || attempt == PollRaises
    requires recorded == ErrorRecorded || recorded.Raise?
    ensures var v := Step(c, w, StreamTask(Process(attempt)));
            && v.pc == Handling(E.Error(true, false, false))
            && v.data == (if attempt == ProduceRaises then w.data
                          else w.data.(produced := w.data.produced + [w.pc.id], outcome := w.data.outcome + [Pending]))
            && Step(c, v, StreamTask(recorded)) == v.(pc := Ended)
  {
  }

  /** An accepted comment is produced and counted, and the last of a batch starts the flush. */
  lemma AcceptedIsCounted(c: Config, w: Worker)
    requires w.pc.Reporting? && w.pc.last != Some(w.pc.id) && !w.cancelStream
    ensures var d := w.data;
            Step(c, w, StreamTask(Process(Accepted))) ==
            w.(pc := if d.since + 1 < c.interval then Listening(w.pc.last) else Flushing(w.pc.last, w.pc.id),
               data := d.(since := d.since + 1, produced := d.produced + [w.pc.id], outcome := d.outcome + [Pending]))
  {
  }

  /** A flush that returns with all delivered and no failure reported is followed by the checkpoint of this comment,
      and the loop goes on with an empty batch, whether or not the write succeeds. */
  lemma CleanFlushIsSaved(c: Config, w: Worker, error: E.Error)
    requires w.pc.Flushing? && !w.cancelStream
    requires w.data.errors == [] && forall n :: 0 <= n < |w.data.outcome| ==> w.data.outcome[n] == Acked
    ensures var saved := (stored: bool) =>
              w.(pc := Listening(w.pc.last),
                 data := w.data.(since := 0, saves := w.data.saves + [Save(w.pc.id, |w.data.produced|, stored)]));
            && Two(c, w, FlushReturns(0), SaveReturns) == saved(true)
            && Two(c, w, FlushReturns(0), Raise(error)) == saved(false)
  {
  }

  /** Any other end of the flush is the fatal Kafka error, and nothing is saved. */
  lemma OtherFlushEndsTheLoop(c: Config, w: Worker, flushed: StreamEvent, recorded: StreamEvent)
    requires w.pc.Flushing? && !w.cancelStream
    requires || flushed.Raise?
             || (flushed.FlushReturns? && flushed.remaining > 0)
             || (flushed == FlushReturns(0) && w.data.errors != [] && Pending !in w.data.outcome)
    requires recorded == ErrorRecorded || recorded.Raise?
    ensures Step(c, w, StreamTask(flushed)).pc == Handling(E.Error(true, false, false))
    ensures var v := Two(c, w, flushed, recorded);
            v == w.(pc := Ended, data := w.data.(errors := if flushed.Raise? then w.data.errors else []))
  {
  }

  /** A recorded error: fatal ones end the stream, rate limits sleep first, other retryable ones go straight on, and
      any other ends it too. */
  lemma RecordedErrorDecides(c: Config, w: Worker)
    requires w.pc.Handling? && !w.cancelStream
    ensures var e, next := w.pc.error, Step(c, w, StreamTask(ErrorRecorded)).pc;
            if e.inFatal then next == Ended
            else if e.inBackoff then next == Sleeping && Two(c, w, ErrorRecorded, Woken).pc == Top
            else if e.inRetryable then next == Top
            else next == Ended
  {
  }

  /** The session: the breaker lets it in or ends the loop, a fetch opens it, an empty yield changes nothing, a comment
      is reported, an end of the stream starts the loop again, and an error of the fetch is handled. */
  lemma SessionLeads(c: Config, w: Worker, last: Option<CommentId>, id: CommentId, error: E.Error)
    requires !w.cancelStream && !w.stop
    ensures w.pc.Top? ==>
              && Two(c, w, Call(true), Opened(last)) == w.(pc := Listening(last))
              && Two(c, w, Call(false), ErrorRecorded) == w.(pc := Ended)
              && Two(c, w, Call(true), Raise(error)) == w.(pc := Handling(error))
    ensures w.pc.Listening? ==>
              && Two(c, w, Comment(None), Resume) == w
              && Two(c, w, Comment(Some(id)), Resume) == w.(pc := Reporting(w.pc.last, id))
              && Two(c, w, StreamEnds, Closed) == w.(pc := Top)
              && Step(c, w, StreamTask(Raise(error))) == w.(pc := Handling(error))
  {
  }

  /** A stop request is seen before the next call, and before the next comment is looked at. */
  lemma StopIsSeen(c: Config, w: Worker, admitted: bool, comment: Option<CommentId>)
    requires !w.cancelStream && w.stop
    ensures w.pc.Top? ==> Step(c, w, StreamTask(Call(admitted))) == w.(pc := Ended)
    ensures w.pc.Listening? ==>
              Step(c, Two(c, w, Comment(comment), Closed), StreamTask(Call(admitted))) == w.(pc := Ended)
  {
  }

  /** The watchdog: only a confirmed refresh leads back to the next one, by way of a heartbeat that may fail. */
  lemma WatchLeads(c: Config, w: Worker, now: real)
    requires !w.cancelWatch
    ensures Step(c, w, WatchTask(ScriptRuns(now))) ==
            if c.sub in w.leases && w.leases[c.sub].token == c.token && now < w.leases[c.sub].expiry
            then w.(leases := w.leases[c.sub := Lease.Lease(c.token, now + 60.0)]) else w
    ensures w.watch.Pausing? ==> Step(c, w, WatchTask(WakesUp)) == w.(watch := Refreshing)
    ensures w.watch.Refreshing? ==>
              && Step(c, Step(c, w, WatchTask(Answer(true))), WatchTask(BeatEnds)) == w.(watch := Pausing)
              && Step(c, w, WatchTask(Answer(false))).watch.Gone? && Step(c, w, WatchTask(Answer(false))).stop
              && Step(c, w, WatchTask(RefreshRaises)).watch.Gone? && Step(c, w, WatchTask(RefreshRaises)).stop
  {
  }

  /** `run` saves the final checkpoint after a cancellation and after the watchdog's end, and not when only the stream
      has ended. */
  lemma FinalSaveOnShutdown(c: Config, w: Worker)
    requires w.stage.Waiting? && w.pc.Ended? && w.watch.Gone?
    ensures Step(c, Step(c, w, MainTask(Cancel)), MainTask(Drained)).stage == FinalSave
    ensures Step(c, Step(c, w, MainTask(Notice)), MainTask(Drained)).stage == FinalSave
    ensures var left := Step(c, w.(watch := Pausing), MainTask(Notice));
            Step(c, Step(c, left, WatchTask(WatchInterrupted)), MainTask(Drained)).stage == Releasing
    ensures var left := Step(c, w.(watch := Pausing), MainTask(Cancel));
            Step(c, Step(c, left, WatchTask(WatchInterrupted)), MainTask(Drained)).stage == FinalSave
  {
  }

  /** As long as no failure is reported, no failure is remembered, so a complete flush is a clean one. */
  lemma {:induction false} NoReportNoError(c: Config, es: seq<Event>)
    requires forall i :: 0 <= i < |es| && es[i].Callback? ==> es[i].ok
    ensures Run(c, es).data.errors == [] && Failed !in Run(c, es).data.outcome
  {
    if es != [] {
      NoReportNoError(c, es[..|es| - 1]);
      StepWithoutReport(c, Run(c, es[..|es| - 1]), es[|es| - 1]);
    }
  }

  lemma StepWithoutReport(c: Config, w: Worker, e: Event)
    requires w.data.errors == [] && Failed !in w.data.outcome && (e.Callback? ==> e.ok)
    ensures Step(c, w, e).data.errors == [] && Failed !in Step(c, w, e).data.outcome
  {
    if !e.StreamTask? && !e.Callback? { OthersKeepData(c, w, e); }
  }

  // ---------------------------------------------------------------------------
  // Delivery and checkpoints
  // ---------------------------------------------------------------------------

  /** Whenever the checkpoint is set to a comment, every message this worker ever produced, up to and
      including that comment's, has been delivered. */
  lemma DeliveredBeforeCheckpoint(c: Config, es: seq<Event>, k: nat)
    requires c.interval > 0 && k < |Run(c, es).data.saves|
    ensures Covered(Run(c, es).data, Run(c, es).data.saves[k])
  {
    RunInvariants(c, es);
  }

  /** What has failed stays failed, and from then on no step saves. */
  lemma StepAfterFailure(c: Config, w: Worker, e: Event)
    requires DeliveryInv(w) && Failed in w.data.outcome
    ensures Failed in Step(c, w, e).data.outcome && Step(c, w, e).data.saves == w.data.saves
  {
    var n :| 0 <= n < |w.data.outcome| && w.data.outcome[n] == Failed;
    if !e.StreamTask? && !e.Callback? { OthersKeepData(c, w, e); }
    assert Step(c, w, e).data.outcome[n] == Failed;
  }

  /** After a reported delivery failure no comment checkpoint is written any more. */
  lemma {:induction false} NoCheckpointAfterFailure(c: Config, es: seq<Event>, k: nat)
    requires c.interval > 0 && k <= |es|
    requires Failed in Run(c, es[..k]).data.outcome
    ensures Failed in Run(c, es).data.outcome
    ensures Run(c, es).data.saves == Run(c, es[..k]).data.saves
    decreases |es|
  {
    if k < |es| {
      var before := es[..|es| - 1];
      assert before[..k] == es[..k];
      NoCheckpointAfterFailure(c, before, k);
      RunInvariants(c, before);
      StepAfterFailure(c, Run(c, before), es[|es| - 1]);
    } else {
      assert es[..k] == es;
    }
  }

  lemma RunSnoc(c: Config, es: seq<Event>, e: Event)
    ensures Run(c, es + [e]) == Step(c, Run(c, es), e)
  {
    assert (es + [e])[..|es|] == es;
  }

  /** The failure is still in the list when the next flush returns: the flush raises, and the loop ends. */
  lemma FailureEndsTheLoop(c: Config, es: seq<Event>, remaining: nat, recorded: StreamEvent)
    requires c.interval > 0
    requires var w := Run(c, es);
             Failed in w.data.outcome && w.pc.Flushing? && !w.cancelStream && FlushPossible(w.data, remaining)
    requires recorded.ErrorRecorded? || recorded.Raise?
    ensures var raised := es + [StreamTask(FlushReturns(remaining))];
            && Run(c, raised).pc == Handling(E.KAFKA_DELIVERY_ERROR)
            && Run(c, raised + [StreamTask(recorded)]).pc == Ended
  {
    RunInvariants(c, es);
    RunSnoc(c, es, StreamTask(FlushReturns(remaining)));
    RunSnoc(c, es + [StreamTask(FlushReturns(remaining))], StreamTask(recorded));
  }

  // ---------------------------------------------------------------------------
  // Batches and replay
  // ---------------------------------------------------------------------------

  /** Messages produced are whole batches, one per checkpoint attempt, and the current one. */
  lemma BatchConservation(c: Config, es: seq<Event>)
    requires c.interval > 0 && Live(Run(c, es))
    ensures var w := Run(c, es);
            && |w.data.produced| == c.interval * |w.data.saves| + w.data.since
            && 0 <= w.data.since <= c.interval
            && (!w.pc.Flushing? && !w.pc.Saving? ==> w.data.since < c.interval)
  {
    RunInvariants(c, es);
  }

  /** Batch checkpoints up to and including the last one whose write succeeded. */
  function LastStored(saves: seq<Save>): (n: nat)
    ensures n <= |saves|
    ensures n > 0 ==> saves[n - 1].stored
    ensures forall k :: n <= k < |saves| ==> !saves[k].stored
  {
    if saves == [] then 0
    else if saves[|saves| - 1].stored then |saves|
    else LastStored(saves[..|saves| - 1])
  }

  /** Messages beyond the last checkpoint that is known to be in Redis: what a crash may replay. */
  function Beyond(d: Data): int {
    var n := LastStored(d.saves);
    |d.produced| - if n == 0 then 0 else d.saves[n - 1].upto
  }

  /** At any moment of any run, a crash replays at most one interval of produced messages for each checkpoint write
      that failed since the last success, and one more; and fewer than that between comments. */
  lemma ReplayWindow(c: Config, es: seq<Event>)
    requires c.interval > 0
    ensures var w := Run(c, es);
            var failed := |w.data.saves| - LastStored(w.data.saves);
            && Beyond(w.data) <= c.interval * (failed + 1)
            && (Live(w) && !w.pc.Flushing? && !w.pc.Saving? ==> Beyond(w.data) < c.interval * (failed + 1))
  {
    RunInvariants(c, es);
    var w := Run(c, es);
    var n := LastStored(w.data.saves);
    assert n > 0 ==> w.data.saves[n - 1].upto == c.interval * n;
    Distributes(c.interval, |w.data.saves|, n);
  }

  lemma Distributes(a: int, b: int, n: int)
    ensures a * (b - n + 1) == a * b - a * n + a
  {
  }

  function Copies<T>(n: nat, t: T): seq<T> { seq(n, _ => t) }

  /** n comments produced and m of them delivered, nothing saved yet. */
  function Batch(n: nat, m: nat): Data
    requires m <= n
  {
    Data(n, [], Copies(n, "c"), Copies(m, Acked) + Copies(n - m, Pending), [])
  }

  lemma {:induction false} ProduceBatch(c: Config, n: nat) returns (es: seq<Event>)
    requires c.interval > 0 && n <= c.interval
    ensures Run(c, es) ==
            INITIAL.(pc := if n < c.interval then Listening(None) else Flushing(None, "c"), data := Batch(n, 0))
  {
    if n == 0 {
      RunSnoc(c, [], StreamTask(Call(true)));
      RunSnoc(c, [] + [StreamTask(Call(true))], StreamTask(Opened(None)));
      es := [] + [StreamTask(Call(true))] + [StreamTask(Opened(None))];
    } else {
      var a := ProduceBatch(c, n - 1);
      var b := a + [StreamTask(Comment(Some("c")))];
      var d := b + [StreamTask(Resume)];
      es := d + [StreamTask(Process(Accepted))];
      RunSnoc(c, a, StreamTask(Comment(Some("c"))));
      RunSnoc(c, b, StreamTask(Resume));
      RunSnoc(c, d, StreamTask(Process(Accepted)));
      assert ProcessedData(Batch(n - 1, 0), None, "c", Accepted) == Batch(n, 0);
    }
  }

  lemma {:induction false} DeliverBatch(c: Config, m: nat) returns (es: seq<Event>)
    requires c.interval > 0 && m <= c.interval
    ensures Run(c, es) == INITIAL.(pc := Flushing(None, "c"), data := Batch(c.interval, m))
  {
    if m == 0 {
      es := ProduceBatch(c, c.interval);
    } else {
      var a := DeliverBatch(c, m - 1);
      es := a + [Callback(m - 1, true)];
      RunSnoc(c, a, Callback(m - 1, true));
      assert Batch(c.interval, m - 1).outcome[m - 1 := Acked] == Batch(c.interval, m).outcome;
    }
  }

  /** The bound is met: a worker can wait for its first checkpoint write with all of a batch delivered. */
  lemma ReplayWindowIsMet(c: Config) returns (es: seq<Event>)
    requires c.interval > 0
    ensures var w := Run(c, es);
            && w.pc.Saving? && w.data.saves == []
            && Beyond(w.data) == c.interval
            && forall n :: 0 <= n < |w.data.outcome| ==> w.data.outcome[n] == Acked
  {
    var a := DeliverBatch(c, c.interval);
    es := a + [StreamTask(FlushReturns(0))];
    RunSnoc(c, a, StreamTask(FlushReturns(0)));
  }

  // ---------------------------------------------------------------------------
  // Stop and shutdown
  // ---------------------------------------------------------------------------

  /** Messages produced since the stop event was set. */
  function ProducedSinceStop(w: Worker): int {
    match w.atStop
    case None => 0
    case Some(n) => |w.data.produced| - n
  }

  /** Wherever lock loss strikes, at most one more comment is produced. */
  lemma AtMostOneAfterStop(c: Config, es: seq<Event>)
    requires c.interval > 0
    ensures Run(c, es).stop <==> Run(c, es).atStop.Some?
    ensures ProducedSinceStop(Run(c, es)) <= 1
  {
    RunInvariants(c, es);
  }

  /** And one more it can be: the loss may strike while a comment is between the check and the producer. */
  lemma OneAfterStopHappens(c: Config) returns (es: seq<Event>)
    ensures ProducedSinceStop(Run(c, es)) == 1
  {
    var es1 := [StreamTask(Call(true))];
    var es2 := es1 + [StreamTask(Opened(None))];
    var es3 := es2 + [StreamTask(Comment(Some("c")))];
    var es4 := es3 + [WatchTask(WakesUp)];
    var es5 := es4 + [WatchTask(RefreshRaises)];
    var es6 := es5 + [StreamTask(Resume)];
    es := es6 + [StreamTask(Process(Accepted))];
    RunSnoc(c, [], StreamTask(Call(true)));
    assert [] + es1 == es1;
    RunSnoc(c, es1, StreamTask(Opened(None)));
    RunSnoc(c, es2, StreamTask(Comment(Some("c"))));
    assert Run(c, es3) == INITIAL.(pc := Yielded(None, Some("c")));
    RunSnoc(c, es3, WatchTask(WakesUp));
    RunSnoc(c, es4, WatchTask(RefreshRaises));
    assert Run(c, es5) == INITIAL.(pc := Yielded(None, Some("c")), stop := true, atStop := Some(0), watch := Gone);
    RunSnoc(c, es5, StreamTask(Resume));
    RunSnoc(c, es6, StreamTask(Process(Accepted)));
  }

  /** Once `run` is past its drain, no step of anyone produces, saves or revives the stream task. */
  lemma StepAfterDrain(c: Config, w: Worker, e: Event)
    requires DrainInv(w) && !w.stage.Waiting? && !w.stage.Draining?
    ensures var v := Step(c, w, e);
            && v.data.produced == w.data.produced && v.data.saves == w.data.saves
            && v.pc.Ended? && !v.stage.Waiting? && !v.stage.Draining?
            && (w.atRelease.Some? ==> v.atRelease.Some?)
  {
    if !e.StreamTask? && !e.Callback? { OthersKeepData(c, w, e); }
  }

  /** However often `run` is cancelled: it attempts the release only when both tasks have ended by themselves, and
      nothing is produced or checkpointed from then on. */
  lemma {:induction false} NothingAfterRelease(c: Config, es: seq<Event>, k: nat)
    requires c.interval > 0 && k <= |es| && Run(c, es[..k]).atRelease.Some?
    ensures Run(c, es[..k]).pc.Ended? && Run(c, es[..k]).watch.Gone?
    ensures Run(c, es).atRelease.Some? && Run(c, es).data.produced == Run(c, es[..k]).data.produced
    ensures Run(c, es).data.saves == Run(c, es[..k]).data.saves
    decreases |es|
  {
    RunInvariants(c, es[..k]);
    if k < |es| {
      assert es[..|es| - 1][..k] == es[..k];
      NothingAfterRelease(c, es[..|es| - 1], k);
      RunInvariants(c, es[..|es| - 1]);
      StepAfterDrain(c, Run(c, es[..|es| - 1]), es[|es| - 1]);
    } else {
      assert es[..k] == es;
    }
  }

  /** What is left once `run` drains: the cancellations arrive, gather returns, the checkpoint, the release. */
  function Exit(now: real): seq<Event> {
    [StreamTask(Interrupted)] + [WatchTask(WatchInterrupted)] + [MainTask(Drained)] + [MainTask(FinalSaved)]
    + [MainTask(Release(now))]
  }

  /** Wherever the two tasks were when `run` began to drain, on every exit path, the drain completes, the release
      is reached, and it leaves the lease without this worker's token. */
  lemma EveryExitReleases(c: Config, es: seq<Event>, now: real)
    requires c.interval > 0 && Run(c, es).stage.Draining?
    ensures var w := Run(c, es + Exit(now));
            && w.stage.Finished? && w.atRelease.Some?
            && !Lease.Owns(w.leases, c.sub, c.token, now)
  {
    RunInvariants(c, es);
    var a := es + [StreamTask(Interrupted)];
    var b := a + [WatchTask(WatchInterrupted)];
    var d := b + [MainTask(Drained)];
    var f := d + [MainTask(FinalSaved)];
    CancellationEndsTheStream(Run(c, es).pc);
    RunSnoc(c, es, StreamTask(Interrupted));
    RunSnoc(c, a, WatchTask(WatchInterrupted));
    assert Run(c, b).pc.Ended? && Run(c, b).watch.Gone?;
    RunSnoc(c, b, MainTask(Drained));
    RunSnoc(c, d, MainTask(FinalSaved));
    RunSnoc(c, f, MainTask(Release(now)));
    assert es + Exit(now) == f + [MainTask(Release(now))];
  }

  lemma StepSkipsRelease(c: Config, w: Worker, e: Event)
    requires Step(c, w, e).stage.Finished? && Step(c, w, e).atRelease.None?
    ensures w.atRelease.None?
    ensures w.stage.Finished? || (e == MainTask(Cancel) && (w.stage.FinalSave? || w.stage.Releasing?))
  {
    if !e.MainTask? { OthersKeepStage(c, w, e); }
  }

  /** `run` is never over without a release attempt unless it was cancelled in its very last awaits. */
  lemma {:induction false} OnlyLateCancelSkipsRelease(c: Config, es: seq<Event>) returns (k: nat)
    requires Run(c, es).stage.Finished? && Run(c, es).atRelease.None?
    ensures k < |es| && es[k] == MainTask(Cancel)
    ensures Run(c, es[..k]).stage.FinalSave? || Run(c, es[..k]).stage.Releasing?
  {
    var before := es[..|es| - 1];
    StepSkipsRelease(c, Run(c, before), es[|es| - 1]);
    if Run(c, before).stage.Finished? {
      k := OnlyLateCancelSkipsRelease(c, before);
      assert before[..k] == es[..k];
    } else {
      k := |before|;
    }
  }

  /** A change of the leases that concerns only a key with this token. */
  predicate Own(c: Config, before: Lease.Leases, after: Lease.Leases) {
    && after - {c.sub} == before - {c.sub}
    && (after != before ==> c.sub in before && before[c.sub].token == c.token)
    && (c.sub in after ==> c.sub in before && after[c.sub].token == before[c.sub].token)
  }

  lemma ScriptsAreOwn(c: Config, leases: Lease.Leases, now: real, ttl: real)
    ensures Own(c, leases, Lease.Refreshed(leases, c.sub, c.token, now, ttl))
    ensures Own(c, leases, Lease.Released(leases, c.sub, c.token, now))
  {
  }

  /** What this worker does to the leases, its late refreshes and its release included, concerns only a key
      that holds its own token. */
  lemma OwnTokenOnly(c: Config, w: Worker, e: Event)
    requires !e.Elsewhere?
    ensures Own(c, w.leases, Step(c, w, e).leases)
  {
    match e
    case WatchTask(k) => if k.ScriptRuns? { ScriptsAreOwn(c, w.leases, k.now, LEASE_TTL); }
    case MainTask(m) => if m.Release? { ScriptsAreOwn(c, w.leases, m.now, LEASE_TTL); }
    case _ =>
  }

  // ---------------------------------------------------------------------------
  // The class, between the awaits of the machine
  // ---------------------------------------------------------------------------

  /** Callbacks served one after the other; one for a message that is not outstanding never comes. */
  function Served(d: Data, callbacks: seq<(nat, bool)>): Data {
    if callbacks == [] then d else
    var before := Served(d, callbacks[..|callbacks| - 1]);
    var (n, ok) := callbacks[|callbacks| - 1];
    if n < |before.outcome| && before.outcome[n] == Pending then Delivered(before, n, ok) else before
  }

  /** How the environment meets one comment: serializer and producer, the callbacks that poll(0) serves, those served
      while a flush waits, how that flush ends, and whether the checkpoint write returns. */
  datatype Reception = Reception(
    attempt: Attempt, polled: seq<(nat, bool)>, callbacks: seq<(nat, bool)>, flushRaises: bool, remaining: nat,
    stored: bool)

  datatype Result = Continue | RecordRejection | RaiseKafkaError

  /** The machine's data after the comment and the callbacks of its poll, which follows an enqueue. */
  function Polled(d: Data, last: Option<CommentId>, id: CommentId, r: Reception): Data {
    var processed := ProcessedData(d, last, id, r.attempt);
    if processed == d then d else Served(processed, r.polled)
  }

  class StreamWorker {
    const checkpointInterval: int
    var commentsSinceCheckpoint: int
    var deliveryErrors: seq<nat>
    // the producer's side, and what was saved
    var produced: seq<CommentId>
    var outcome: seq<Delivery>
    var saves: seq<Save>

    function View(): Data
      reads this
    {
      Data(commentsSinceCheckpoint, deliveryErrors, produced, outcome, saves)
    }

    constructor (checkpointInterval: int)
      ensures this.checkpointInterval == checkpointInterval && View() == NO_DATA
    {
      this.checkpointInterval := checkpointInterval;
      commentsSinceCheckpoint, deliveryErrors := 0, [];
      produced, outcome, saves := [], [], [];
    }

    method OnDelivery(message: nat, ok: bool)
      requires message < |outcome| && outcome[message] == Pending
      modifies this`deliveryErrors, this`outcome
      ensures View() == Delivered(old(View()), message, ok)
      ensures deliveryErrors == if ok then old(deliveryErrors) else old(deliveryErrors) + [message]
      ensures outcome == old(outcome)[message := if ok then Acked else Failed]
    {
      outcome := outcome[message := if ok then Acked else Failed];
      if ok { return; }
      deliveryErrors := deliveryErrors + [message];
    }

    /** The producer's poll or flush runs _on_delivery for each report. */
    method ServeCallbacks(callbacks: seq<(nat, bool)>)
      modifies this`deliveryErrors, this`outcome
      ensures View() == Served(old(View()), callbacks)
    {
      ghost var d := View();
      for i := 0 to |callbacks|
        invariant View() == Served(d, callbacks[..i])
      {
        assert callbacks[..i + 1][..i] == callbacks[..i];
        var (n, success) := callbacks[i];
        if n < |outcome| && outcome[n] == Pending {
          OnDelivery(n, success);
        }
      }
      assert callbacks[..|callbacks|] == callbacks;
    }

    /** False is KafkaDeliveryError. */
    method FlushDeliveryBatch(r: Reception) returns (ok: bool)
      requires !r.flushRaises ==> FlushPossible(Served(View(), r.callbacks), r.remaining)
      modifies this`deliveryErrors, this`outcome
      ensures var d := Served(old(View()), r.callbacks);
              && ok == (!r.flushRaises && FlushPasses(d, r.remaining))
              && View() == if r.flushRaises then d else d.(errors := [])
    {
      ServeCallbacks(r.callbacks);
      if r.flushRaises { return false; }
      var taken := deliveryErrors;
      deliveryErrors := [];
      if r.remaining != 0 { return false; }
      if taken != [] { return false; }
      return true;
    }

    method SaveCheckpointForCommentId(id: CommentId, stored: bool)
      modifies this`saves
      ensures saves == old(saves) + [Save(id, |produced|, stored)]
    {
      saves := saves + [Save(id, |produced|, stored)];
    }

    /** produce and poll(0); the poll may raise once its callbacks are served. */
    method Produce(id: CommentId, polled: seq<(nat, bool)>)
      requires |outcome| == |produced| && (deliveryErrors == [] ==> Failed !in outcome)
      modifies this`produced, this`outcome, this`deliveryErrors
      ensures View() == Served(Enqueued(old(View()), id), polled)
      ensures |outcome| == |produced| && produced == old(produced) + [id] && saves == old(saves)
      ensures deliveryErrors == [] ==> Failed !in outcome
      ensures Failed in old(outcome) ==> deliveryErrors != []
    {
      produced := produced + [id];
      outcome := outcome + [Pending];
      ServedKeepsErrors(View(), polled);
      ServeCallbacks(polled);
    }

    /** The end of a batch: flush, checkpoint, and count from zero. False is KafkaDeliveryError. */
    method CheckpointBatch(id: CommentId, r: Reception) returns (ok: bool)
      requires |outcome| == |produced| > 0 && produced[|produced| - 1] == id
      requires deliveryErrors == [] ==> Failed !in outcome
      requires !r.flushRaises ==> FlushPossible(Served(View(), r.callbacks), r.remaining)
      modifies this
      ensures var d := Served(old(View()), r.callbacks);
              && ok == (!r.flushRaises && FlushPasses(d, r.remaining))
              && (r.flushRaises ==> View() == d)
              && (!r.flushRaises ==> View() == if ok then Saved(d.(errors := []), id, r.stored) else d.(errors := []))
      ensures saves == if ok then old(saves) + [Save(id, |produced|, r.stored)] else old(saves)
      ensures ok ==> Covered(View(), saves[|saves| - 1]) && old(deliveryErrors) == []
      ensures produced == old(produced)
    {
      ServedKeepsErrors(View(), r.callbacks);
      ok := FlushDeliveryBatch(r);
      if !ok { return; }
      assert forall n :: 0 <= n < |outcome| ==> outcome[n] in outcome;
      SaveCheckpointForCommentId(id, r.stored);
      commentsSinceCheckpoint := 0;
    }

    /** _process_comment does to the data what the machine does from Reporting to its next Listening,
        Rejecting or Handling. In the method's own terms: a checkpoint is written only for this comment, only
        with every message delivered, and only if nothing had failed. */
    method ProcessComment(last: Option<CommentId>, id: CommentId, r: Reception) returns (result: Result)
      requires |outcome| == |produced| && (deliveryErrors == [] ==> Failed !in outcome)
      requires ProcessedPc(checkpointInterval, View(), last, id, r.attempt).Flushing? && !r.flushRaises ==>
                 FlushPossible(Served(Polled(View(), last, id, r), r.callbacks), r.remaining)
      modifies this
      ensures var pc := ProcessedPc(checkpointInterval, old(View()), last, id, r.attempt);
              var d1 := Polled(old(View()), last, id, r);
              if !pc.Flushing? then View() == d1 && result == ResultAt(pc)
              else (View(), result) == Flushed(Served(d1, r.callbacks), id, r)
      ensures last == Some(id) ==> result == Continue && View() == old(View())
      ensures last != Some(id) && r.attempt.Rejected? ==> result == RecordRejection && View() == old(View())
      ensures last != Some(id) && r.attempt == ProduceRaises ==> result == RaiseKafkaError && View() == old(View())
      ensures last != Some(id) && r.attempt == PollRaises ==>
                result == RaiseKafkaError && produced == old(produced) + [id] && saves == old(saves)
      ensures last != Some(id) && r.attempt == Accepted ==>
                && produced == old(produced) + [id]
                && (old(commentsSinceCheckpoint) + 1 < checkpointInterval ==>
                      result == Continue && commentsSinceCheckpoint == old(commentsSinceCheckpoint) + 1)
                && (old(commentsSinceCheckpoint) + 1 >= checkpointInterval && result == Continue ==>
                      commentsSinceCheckpoint == 0 && saves == old(saves) + [Save(id, |produced|, r.stored)])
      ensures || saves == old(saves)
              || (saves == old(saves) + [Save(id, |produced|, r.stored)] && Covered(View(), saves[|saves| - 1]))
      ensures Failed in old(outcome) ==> saves == old(saves)
      ensures result == RaiseKafkaError ==> saves == old(saves)
    {
      if last == Some(id) { return Continue; }
      if r.attempt.Rejected? { return RecordRejection; }
      if r.attempt == ProduceRaises { return RaiseKafkaError; }
      PolledIsServed(checkpointInterval, View(), last, id, r);
      Produce(id, r.polled);
      if r.attempt == PollRaises { return RaiseKafkaError; }
      result := CountComment(id, r);
    }

    /** The end of _process_comment: count the comment, and checkpoint a full batch. */
    method CountComment(id: CommentId, r: Reception) returns (result: Result)
      requires |outcome| == |produced| > 0 && produced[|produced| - 1] == id
      requires deliveryErrors == [] ==> Failed !in outcome
      requires commentsSinceCheckpoint + 1 >= checkpointInterval && !r.flushRaises ==>
                 FlushPossible(Served(Counted(View()), r.callbacks), r.remaining)
      modifies this
      ensures var full := old(commentsSinceCheckpoint) + 1 >= checkpointInterval;
              var d := Served(Counted(old(View())), r.callbacks);
              (View(), result) == if full then Flushed(d, id, r) else (Counted(old(View())), Continue)
      ensures saves == old(saves)
              || (saves == old(saves) + [Save(id, |produced|, r.stored)] && Covered(View(), saves[|saves| - 1]))
      ensures saves != old(saves) ==> old(deliveryErrors) == [] && result == Continue
      ensures old(commentsSinceCheckpoint) + 1 < checkpointInterval ==>
                result == Continue && commentsSinceCheckpoint == old(commentsSinceCheckpoint) + 1
      ensures old(commentsSinceCheckpoint) + 1 >= checkpointInterval && result == Continue ==>
                commentsSinceCheckpoint == 0 && saves == old(saves) + [Save(id, |produced|, r.stored)]
      ensures produced == old(produced)
    {
      commentsSinceCheckpoint := commentsSinceCheckpoint + 1;
      if commentsSinceCheckpoint >= checkpointInterval {
        var ok := CheckpointBatch(id, r);
        if !ok { return RaiseKafkaError; }
      }
      return Continue;
    }
  }

  /** The end of a batch once the flush's callbacks have been served. */
  function Flushed(d: Data, id: CommentId, r: Reception): (Data, Result) {
    if r.flushRaises then (d, RaiseKafkaError)
    else if FlushPasses(d, r.remaining) then (Saved(d.(errors := []), id, r.stored), Continue)
    else (d.(errors := []), RaiseKafkaError)
  }

  function Counted(d: Data): Data { d.(since := d.since + 1) }

  /** Callbacks look neither at the comment count nor at the order of counting and polling. */
  lemma PolledIsServed(interval: int, d: Data, last: Option<CommentId>, id: CommentId, r: Reception)
    requires last != Some(id) && (r.attempt == PollRaises || r.attempt == Accepted)
    ensures var pc := ProcessedPc(interval, d, last, id, r.attempt);
            if r.attempt == PollRaises then pc.Handling?
            else pc == if d.since + 1 >= interval then Flushing(last, id) else Listening(last)
    ensures var served := Served(Enqueued(d, id), r.polled);
            && served.since == d.since
            && Polled(d, last, id, r) == if r.attempt == Accepted then served.(since := d.since + 1) else served
  {
    var processed := ProcessedData(d, last, id, r.attempt);
    assert |processed.produced| == |d.produced| + 1;
    ServedCommutes(Enqueued(d, id), processed.since, r.polled);
  }

  /** How _process_comment ends where the machine goes on to wait. */
  function ResultAt(pc: Pc): Result {
    match pc
    case Rejecting(_) => RecordRejection
    case Handling(_) => RaiseKafkaError
    case _ => Continue
  }

  /** Callbacks do not look at the comment count. */
  lemma {:induction false} ServedCommutes(d: Data, since: int, callbacks: seq<(nat, bool)>)
    ensures Served(d.(since := since), callbacks) == Served(d, callbacks).(since := since)
    ensures Served(d, callbacks).since == d.since
  {
    if callbacks != [] {
      ServedCommutes(d, since, callbacks[..|callbacks| - 1]);
    }
  }

  /** A failure reported while the flush waits goes into the error list, and none is forgotten. */
  lemma {:induction false} ServedKeepsErrors(d: Data, callbacks: seq<(nat, bool)>)
    requires |d.outcome| == |d.produced| && (d.errors == [] ==> Failed !in d.outcome)
    ensures var e := Served(d, callbacks);
            && |e.outcome| == |d.outcome| && e.produced == d.produced && e.saves == d.saves && e.since == d.since
            && (e.errors == [] ==> Failed !in e.outcome)
            && (Failed in d.outcome ==> e.errors != [])
            && d.errors <= e.errors
  {
    if callbacks != [] {
      ServedKeepsErrors(d, callbacks[..|callbacks| - 1]);
      var before := Served(d, callbacks[..|callbacks| - 1]);
      var (n, ok) := callbacks[|callbacks| - 1];
      if n < |before.outcome| && before.outcome[n] == Pending && ok && before.errors == [] {
        assert forall k :: 0 <= k < |before.outcome| ==> before.outcome[k] in before.outcome;
      }
    }
  }
}
