# Verified model of the reddit-kafka stream coordinator

Several application instances share one Redis, one Postgres and one Kafka, and start, run,
clean up and restart one stream per subreddit. This project models the parts whose correctness
depends on timing, on interleaving or on long runs, and proves what they keep:

- `Lease.dfy`, `Watchdog.dfy`: the lease with its compare-and-act scripts, and the refresh loop as a
  timed system of any number of workers.
- `Store.dfy`, `Protocol.dfy`, `Clients.dfy`, `Cleanup.dfy`: the registry's key space and scripts, its clients
  interleaved command by command, the same clients undisturbed, and the cleanup sweep.
- `Worker.dfy`: the produce, deliver, flush, checkpoint loop of one worker and its shutdown.
- `CircuitBreaker.dfy`, `ErrorHandling.dfy`, `RetryLoop.dfy`: the breaker, the error decisions, and the
  stream loop that combines them.
- `Flusher.dfy`: the write-behind flusher, alone and with any number of flushers.
- `Migrations.dfy`: the migration pass, its transaction and the retry loop.
- `Common.dfy`: options, iteration and small helpers.

Every concurrent part is a transition system over values: a `Step` function for one atomic action
(one Redis command, script or pipeline; the code between two awaits; one section under the breaker's
lock), and an `Exec` that folds it over any finite sequence of events. An event that is not possible in
a state leaves it unchanged, so a theorem over all event sequences is a theorem over all interleavings.
Every object whose methods change its fields is also a class with those fields, and each method is tied to the
functions the theorems are about. The environment (clock, uuids, server answers, delivery outcomes,
exceptions, iteration order of sets) always enters as parameters.

## What comes out

- **Lease safety is exactly two inequalities.** A worker is active while its refresh loop runs: it stops being so when it
  sets its stop event, or when it is cancelled because its stream ended or `run` was cancelled. At most one worker per
  subreddit is active, in every run, if and only if startup delay + interval + timeout < ttl and
  answer delay + heartbeat delay + interval + timeout < ttl, where an answer comes at most the smaller of the client's reply
  limit and the refresh timeout after the server ran the script (`Watchdog.MutualExclusion`). With the constants of the
  worker and the Redis client's 5 s per reply that is a startup under 20 s and a heartbeat under 15 s; a heartbeat of one
  connection (5 s) and one reply (5 s) is safe, and whatever retrying the client library does on top has to fit under
  the 15 s too (`Watchdog.SourceConstants`).
- **Doubling is not always doubling.** After k openings the backoff is min(r * 2^k, M) in every run if and only
  if the 60 s rate-limit suggestion is at most 2r or M is at most 2r (`CircuitBreakers.BackoffClosedForm`). The worker's
  r = 60 satisfies it; r = 10, which the breaker's unit tests use, does not.
- **The elapsed-time bound needs no such condition.** Whatever backoff the errors suggest, the n-th failed probe comes at
  least the sum of min(r * 2^i, M) after the opening (`CircuitBreakers.BackoffLowerBound`).
- **At most one more comment** is produced after lock loss, and one more does happen
  (`Worker.AtMostOneAfterStop`, `Worker.OneAfterStopHappens`).
- **A crash can replay exactly one interval.** The application's documentation allows for duplicates after a crash between
  delivery and checkpoint; the bound is one checkpoint interval, plus one for every checkpoint write that failed since the
  last success, and it is met while a worker waits for a checkpoint write (`Worker.ReplayWindow`, `Worker.ReplayWindowIsMet`).
- **No handler holds a shutdown up.** Wherever the two tasks wait when `run` drains, the cancellations end both and the
  release is reached (`Worker.EveryExitReleases`); it is skipped only if `run` is cancelled in its last two awaits
  (`Worker.OnlyLateCancelSkipsRelease`).
- **61 attempts** is the exact bound of the migration retry loop (`Migrations.Runner.RunWithRetry`).
- A second pending migration of the same file name cannot run twice even though the code's in-memory view
  of applied versions is not extended during the pass: the primary key fails the transaction.

Where code and documentation differ, the model follows the code. The application README promises that locks ensure
only one instance streams a subreddit; the code ensures it under the two bounds above. The worker's
"final checkpoint" on shutdown rewrites the comment id that Redis already holds; it does not advance it.

Assumptions: uuids are fresh; each clock the code reads (the breaker's, the retry loop's, the Redis server's) is
non-decreasing; `updated_at` stamps are strictly increasing only where a theorem says so (`Protocol.Increasing`); timers
fire on time in `Watchdog`; Kafka's `flush` returns 0 only when every delivery callback has been served; a Postgres
COMMIT reports its outcome truthfully; a task with a cancellation pending gets it at its next resumption, and
`asyncio.gather` returns only when both tasks are done, as asyncio documents.

## Model

| member | source | states |
|---|---|---|
| Lease.LockManager.AcquireLock | apps/reddit-kafka/src/stream/lock.py:46-81 | the token is stored with its expiry, and returned, exactly if the key was absent or expired; otherwise nothing changes |
| Lease.LockManager.RefreshLock | apps/reddit-kafka/src/stream/lock.py:12-17 | answers true and moves the expiry exactly if the live key holds this token |
| Lease.LockManager.ReleaseLock | apps/reddit-kafka/src/stream/lock.py:19-24 | answers true and deletes exactly if the live key holds this token, and the token never owns the key afterwards |
| Lease.LeaseKeys | apps/reddit-kafka/src/stream/lock.py:12-75 | on the key's own fields: an acquisition of a free key and a refresh by its live owner last until exactly ttl later, a release by the live owner removes it, and any other call changes nothing |
| Lease.StaleTokenStaysStale | apps/reddit-kafka/src/stream/lock.py:63-81 | over every interleaving of callers, an issued token that is not the live lease never becomes it again |
| Lease.OwnershipIsContiguous | apps/reddit-kafka/src/stream/lock.py:46-140 | the states of a run in which a token is the stored lease form one interval |
| Lease.TokenBelongsToOneSubreddit | apps/reddit-kafka/src/stream/lock.py:63-71 | a token that owned one subreddit's key never owns another's |
| Lease.StaleCallsAreInert | apps/reddit-kafka/src/stream/lock.py:83-140 | any later refresh or release with a stale token answers false and leaves all holders and expiries alone |
| Lease.OnlyOwnerOrTimeEndsLease | apps/reddit-kafka/src/stream/lock.py:12-24 | a live lease ends in a run only by its own token's release or by reaching its expiry |
| Watchdog.OwnStepSecures | apps/reddit-kafka/src/stream/worker.py:347-381 | whatever a worker's refresh loop does next, its lease outlasts the time until its next answered refresh |
| Watchdog.OthersStaySecured | apps/reddit-kafka/src/stream/lock.py:12-24 | no step of one worker, zombie refreshes and releases included, shortens another worker's lease |
| Watchdog.StartSecures | apps/reddit-kafka/src/stream/lock.py:63-75 | an acquisition secures the new worker and takes no active worker's lease |
| Watchdog.StepInv | apps/reddit-kafka/src/stream/worker.py:347-386 | every step of every worker, and the passage of time, keeps all active workers secured |
| Watchdog.RefreshLeads | apps/reddit-kafka/src/stream/worker.py:349-381 | every branch of the loop: what sleep, refresh, each answer, failure, heartbeat and cancellation lead to, when the server confirms, and what the scripts do to the lease |
| Watchdog.ActiveWorkerHoldsLease | apps/reddit-kafka/src/stream/worker.py:347-386 | in every run a worker whose stop event is clear has its own token stored unexpired |
| Watchdog.StopsBeforeExpiry | apps/reddit-kafka/src/stream/worker.py:362-370 | a timed-out or failed refresh stops the worker while its lease is still unexpired, and under the bounds the server never refuses an active worker |
| Watchdog.BoundsExclude | apps/reddit-kafka/src/stream/worker.py:97-106 | under the two bounds at most one worker per subreddit is active, in every run with any number of workers |
| Watchdog.BrokenBoundAdmitsTwo | apps/reddit-kafka/src/stream/worker.py:347-381 | if either bound fails there is a run with two active workers on one subreddit, in which no answer takes longer than the reply limit |
| Watchdog.MutualExclusion | apps/reddit-kafka/src/stream/worker.py:347-386 | exclusion in all runs holds if and only if both bounds do |
| Watchdog.SourceConstants | apps/reddit-kafka/src/stream/worker.py:100-102 | with 60/30/10 seconds and 5 s per reply exclusion holds if and only if startup takes under 20 s and heartbeats under 15 s; a 5 s + 5 s heartbeat keeps it |
| Watchdog.SlowReplies | apps/reddit-kafka/src/stream/worker.py:347-381 | with replies not limited below the refresh timeout the second bound is heartbeat + interval + 2 * timeout < ttl |
| Watchdog.RoundIsRun | apps/reddit-kafka/src/stream/worker.py:349-381 | one round of the loop, whoever holds the lease, is the transition system's sleep, refresh, script, answer or failure, and heartbeat |
| Watchdog.RoundsAreRuns | apps/reddit-kafka/src/stream/worker.py:347-381 | any list of rounds is a run of the transition system |
| Watchdog.OnlySilenceStops | apps/reddit-kafka/src/stream/worker.py:362-374 | from an own lease that outlasts the first refresh, under the bounds, the loop stops exactly if a refresh goes unanswered, and owns the lease throughout |
| Watchdog.RefreshLoop.Round | apps/reddit-kafka/src/stream/worker.py:349-381 | does what one round of the transition system does; an unconfirmed refresh sets the stop event |
| Watchdog.RefreshLoop.Run | apps/reddit-kafka/src/stream/worker.py:347-386 | is the run over its rounds up to the first refresh that fails or is refused; with an own lasting lease it stops exactly if one goes unanswered, still owning it |
| Store.Redis.EvalDelete | apps/reddit-kafka/src/repositories/stream_registry.py:15-35 | answers 1 and deletes exactly under the existence, status and stamp guards; keeps or purges the checkpoint; removes the lookup key only if it is this stream's |
| Store.DeleteKeys | apps/reddit-kafka/src/repositories/stream_registry.py:15-35 | key by key, when the script applies, what it removes, and what it leaves as it was |
| Store.Redis.EvalHeartbeat | apps/reddit-kafka/src/repositories/stream_registry.py:37-47 | true, the new stamp and nothing else of the hash, and an index entry, exactly for the owning instance of an active stream; otherwise false and no change |
| Store.StreamRegistry.CreateStream | apps/reddit-kafka/src/repositories/stream_registry.py:117-212 | undisturbed: returns the lookup key's, the identity's or the fresh id in this order, backfills the identity, and writes keys only if it created |
| Store.StreamRegistry.DeleteStream | apps/reddit-kafka/src/repositories/stream_registry.py:325-365 | deletes exactly if the guards hold and the metadata names a subreddit; otherwise nothing changes |
| Store.StreamRegistry.UpdateStatus | apps/reddit-kafka/src/repositories/stream_registry.py:261-269 | unconditional write of status and stamp, also after a deletion; the instance and the index only if one is given, else the stored instance and the subreddit stay |
| Store.StreamRegistry.RequestStop | apps/reddit-kafka/src/repositories/stream_registry.py:311-319 | not found changes nothing; found records the request and the stopping status, indexes the stream under its instance, and changes no other key |
| Store.StreamRegistry.SetCheckpoint | apps/reddit-kafka/src/repositories/stream_registry.py:367-381 | given fields override, missing ones stay, and no field at all is no write |
| Store.FieldsAreLastGiven | apps/reddit-kafka/src/repositories/stream_registry.py:367-389 | after any sequence of partial writes to any streams, each field read back is the last one given for this stream |
| Store.RestartKeepsCheckpoint | apps/reddit-kafka/src/repositories/stream_registry.py:25-33 | delete then create gives the old id and checkpoint back, unless the delete purged, in which case it is a new stream |
| Protocol.MetaEffect | apps/reddit-kafka/src/repositories/stream_registry.py:155-164 | only a create ever makes a metadata hash name a subreddit |
| Protocol.SubEffect | apps/reddit-kafka/src/repositories/stream_registry.py:28-34 | a lookup key gets a new value only from a claim under its claimant's pair, and disappears only by a delete of that subreddit, which leaves its identity key |
| Protocol.IdentityEffect | apps/reddit-kafka/src/repositories/stream_registry.py:133-151 | an identity key is never removed; its value was there before, comes from a client's pair, or is a fresh uuid under a key that was absent |
| Protocol.EffectAgrees | apps/reddit-kafka/src/repositories/stream_registry.py:133-164 | every command keeps lookup, identity and metadata keys in agreement with one assignment of ids |
| Protocol.AdvanceAgrees | apps/reddit-kafka/src/repositories/stream_registry.py:133-164 | the ids a client reads or draws into its locals agree with that assignment |
| Protocol.OthersAgree | apps/reddit-kafka/src/repositories/stream_registry.py:133-164 | no command of another client invalidates a client's locals, a creator about to fix the identity included |
| Protocol.StepAgrees | apps/reddit-kafka/src/repositories/stream_registry.py:15-35 | one step of any client keeps the assignment one to one and takes no assigned id back |
| Protocol.StableIdentity | apps/reddit-kafka/src/repositories/stream_registry.py:133-164 | over all interleavings of creators, backfills, starts, rollbacks, deleters, sweeps, status writers and crashes, also from a legacy store: ids seen anywhere at any two moments are equal exactly if their subreddits are |
| Protocol.CheckpointEffect | apps/reddit-kafka/src/repositories/stream_registry.py:367-381 | only a worker's checkpoint write changes what a checkpoint read returns, and only under its id |
| Protocol.RunStands | apps/reddit-kafka/src/repositories/stream_registry.py:367-389 | over every run the last checkpoint written for a subreddit stands under its id, and an id not in use is as it was |
| Protocol.ResumeAcrossRestarts | apps/reddit-kafka/src/repositories/stream_registry.py:367-389 | the checkpoint under a worker's id is exactly the last one written by any worker of its subreddit, in any incarnation |
| Protocol.RowWasScanned | apps/reddit-kafka/src/tasks/dead_stream_cleanup.py:75-106 | a row a sweep acts on was the stream's metadata at that sweep's own scan |
| Protocol.TouchedStaysTouched | apps/reddit-kafka/src/repositories/stream_registry.py:261-267 | with increasing stamps, metadata touched since a scan never looks like the scanned row again |
| Protocol.CleanupIsCompareAndDelete | apps/reddit-kafka/src/tasks/dead_stream_cleanup.py:92-106 | a sweep's delete takes effect only if the metadata has been exactly the scanned row at every moment since the scan |
| Protocol.MetaWritesStamp | apps/reddit-kafka/src/repositories/stream_registry.py:261-267 | whatever changes a metadata hash stamps it |
| Protocol.SweepsTargetDeadRows | apps/reddit-kafka/src/tasks/dead_stream_cleanup.py:127-138 | a sweep only ever asks to delete rows whose status is none of starting, active and stopping |
| Protocol.CleanupSparesTheLiving | apps/reddit-kafka/src/repositories/stream_registry.py:16-24 | whatever the stamps, a sweep's delete removes nothing but a stream that is none of starting, active and stopping at that moment, and no lease, checkpoint or other stream changes |
| Protocol.StartedTookTheLease | apps/reddit-kafka/src/stream/manager.py:61-82 | in every run, a client that activates or has started a stream drew, at an earlier step of its own, a fresh token that took the free or expired lease of its subreddit for 60 s |
| Clients.AloneCreates | apps/reddit-kafka/src/repositories/stream_registry.py:117-169 | a creator that nobody interrupts does to the store what the registry's method does, and goes on to the lease |
| Clients.AloneLoses | apps/reddit-kafka/src/repositories/stream_registry.py:146-153 | a creator that loses its claim goes by the winner's id and writes nothing |
| Clients.AloneStartsStream | apps/reddit-kafka/src/stream/manager.py:52-83 | start_stream with the lease free: the stream is active under this instance with its old or the drawn id, the drawn token holds the lease for 60 s, other streams and all checkpoints are as they were |
| Clients.AloneFailsToStart | apps/reddit-kafka/src/stream/manager.py:61-69 | start_stream with the lease live in other hands: it fails, the lease is as it was, and only the identity key is left of the attempt |
| Clients.AloneDeletes | apps/reddit-kafka/src/repositories/stream_registry.py:325-365 | an undisturbed delete_stream client does what the registry's method does, and goes on with its sweep |
| Clients.AloneUpdatesStatus | apps/reddit-kafka/src/repositories/stream_registry.py:261-269 | the same for update_status |
| Clients.AloneRequestsStop | apps/reddit-kafka/src/repositories/stream_registry.py:311-319 | the same for request_stop, a missing stream included |
| Clients.AloneBeats | apps/reddit-kafka/src/repositories/stream_registry.py:37-47 | a heartbeat command stamps and indexes exactly an active stream of its instance |
| Clients.AloneKeepsLease | apps/reddit-kafka/src/stream/lock.py:12-24 | a refresh command gives the live owner 60 s more, a release command ends its lease, and neither does anything for others |
| Clients.AloneLooks | apps/reddit-kafka/src/repositories/stream_registry.py:225-229 | a runner works under the lookup key's id if that has metadata, and otherwise does not start |
| Clients.AloneSaves | apps/reddit-kafka/src/repositories/stream_registry.py:367-381 | a runner's write replaces the whole checkpoint of its own stream and nothing else, and it goes on |
| Clients.AloneSweeps | apps/reddit-kafka/src/tasks/dead_stream_cleanup.py:75-125 | an undisturbed sweep of the protocol, in whatever order the set is iterated, retires exactly the listed stopped, errored and inactive streams, as the cleanup method does |
| Cleanup.DeadStreamCleanup.ListStreams | apps/reddit-kafka/src/repositories/stream_registry.py:231-259 | exactly one row per listed stream with metadata, and the listing keeps exactly those |
| Cleanup.DeadStreamCleanup.VisitRow | apps/reddit-kafka/src/tasks/dead_stream_cleanup.py:81-115 | deletes exactly a stopped, errored or inactive stream that has an id, and leaves the store as the sweep of the rows so far requires |
| Cleanup.DeadStreamCleanup.Cleanup | apps/reddit-kafka/src/tasks/dead_stream_cleanup.py:75-125 | an undisturbed sweep removes exactly the listed streams that are stopped, errored or inactive, with their own lookup keys, stop requests and index entries; every other stream's metadata and lookup key are as they were; it counts, retains every identity key, and touches no checkpoint or lease |
| CircuitBreakers.CircuitBreaker.Admit | apps/reddit-kafka/src/stream/circuit_breaker.py:75-87 | admits exactly unless the circuit is open and its backoff has not passed, and then becomes half-open |
| CircuitBreakers.CircuitBreaker.RecordSuccess | apps/reddit-kafka/src/stream/circuit_breaker.py:122-133 | clears failures in whatever state, counts a half-open success, and closes at the threshold |
| CircuitBreakers.CircuitBreaker.RecordFailure | apps/reddit-kafka/src/stream/circuit_breaker.py:135-173 | counts and dates the failure, opens from half-open or at the threshold, and escalates the backoff once |
| CircuitBreakers.CircuitBreaker.Reset | apps/reddit-kafka/src/stream/circuit_breaker.py:184-191 | the initial state again |
| CircuitBreakers.CircuitBreaker.Call | apps/reddit-kafka/src/stream/circuit_breaker.py:63-96 | a refused call changes nothing; an admitted one records its coroutine's progress reports and its outcome and passes it on |
| CircuitBreakers.StatesAreConsistent | apps/reddit-kafka/src/stream/circuit_breaker.py:56-60 | over every interleaving: closed means fewer failures than the threshold and the initial backoff, half-open fewer successes than the threshold, not closed a recorded failure time |
| CircuitBreakers.RecoveriesAreEarned | apps/reddit-kafka/src/stream/circuit_breaker.py:75-133 | half-open is entered only from open, and left for closed only after exactly the threshold of successes with no failure between |
| CircuitBreakers.FailuresAreCounted | apps/reddit-kafka/src/stream/circuit_breaker.py:122-173 | over every interleaving the failure count is the number of logged failures since the last success or reset, and exactly the failures that end a trial or complete a threshold of them open the circuit |
| CircuitBreakers.EscalationGrows | apps/reddit-kafka/src/stream/circuit_breaker.py:146-153 | for any multiplier of at least 1, truncated, one escalation neither shrinks the backoff nor exceeds the cap |
| CircuitBreakers.EscalationTruncates | apps/reddit-kafka/src/stream/circuit_breaker.py:146-153 | the new backoff is the larger of multiple and suggestion, capped, truncated by less than one second |
| CircuitBreakers.EscalatedByError | apps/reddit-kafka/src/stream/error_handler.py:221-233 | with doubling, 60 s for a rate limit and 5 s for any other error are the least it becomes, within the cap |
| CircuitBreakers.BackoffNeverDecreases | apps/reddit-kafka/src/stream/circuit_breaker.py:146-169 | over runs the backoff stays within [recovery timeout, cap] and never decreases until the breaker closes |
| CircuitBreakers.CapIsFixed | apps/reddit-kafka/src/stream/circuit_breaker.py:146-169 | at the cap the backoff stays there until the breaker closes |
| CircuitBreakers.ClosedFormHolds | apps/reddit-kafka/src/stream/circuit_breaker.py:146-169 | after k openings since the last close the backoff is min(r * 2^k, M), over every interleaving |
| CircuitBreakers.RateLimitBreaksForm | apps/reddit-kafka/src/stream/circuit_breaker.py:146-153 | otherwise enough rate-limited calls in a row give another backoff at the first opening |
| CircuitBreakers.BackoffClosedForm | apps/reddit-kafka/src/stream/error_handler.py:221-233 | that closed form holds in all runs if and only if the rate-limit suggestion or the cap is at most 2r |
| CircuitBreakers.NoCallInsideWindow | apps/reddit-kafka/src/stream/circuit_breaker.py:108-113 | over every interleaving without resets, no coroutine is invoked inside a window that an earlier opening announced |
| CircuitBreakers.ClosedFormBounds | apps/reddit-kafka/src/stream/circuit_breaker.py:146-169 | whatever backoffs the errors suggest, after k openings the backoff is at least min(r * 2^k, M) |
| CircuitBreakers.BackoffLowerBound | apps/reddit-kafka/src/stream/circuit_breaker.py:63-173 | with one call at a time, for every r, M and suggestion, the n-th failed probe comes at least the sum of min(r * 2^i, M), i = 1..n, after the opening |
| RetryLoop.BelowThreshold | apps/reddit-kafka/src/stream/circuit_breaker.py:160-169 | fewer failures than the threshold leave the breaker closed, whatever the errors and delays |
| RetryLoop.NextCallRefusedIff | apps/reddit-kafka/src/stream/worker.py:176-187 | after the threshold of failing fetches the next call is refused if and only if its gap is under the announced backoff |
| RetryLoop.CallFinds | apps/reddit-kafka/src/stream/circuit_breaker.py:75-87 | every call of the failing loop below the threshold finds the breaker closed, and the next finds it open and is refused exactly if it comes too early |
| RetryLoop.WorkerWindow | apps/reddit-kafka/src/stream/worker.py:81-84 | with the worker's settings the window is 120 s, more than a rate-limit sleep plus under 60 s of recording, and not more than it with 60 s or above |
| RetryLoop.StreamLoop.HandleError | apps/reddit-kafka/src/stream/worker.py:388-414 | once the error is recorded the loop goes on exactly if it is not fatal and is a rate limit or retryable, and sleeps 60 s exactly for the former |
| RetryLoop.StreamLoop.Round | apps/reddit-kafka/src/stream/worker.py:182-187 | one fetch through the breaker: refused ends the loop, otherwise the breaker and the clock move as the error decides |
| RetryLoop.StreamLoop.Run | apps/reddit-kafka/src/stream/worker.py:176-187 | with failing fetches and the last gap under the backoff the loop ends after at most the threshold of them, never half-open, and by refusal exactly if all of those errors were survivable; in any case nothing is probed or refused before that many |
| Worker.StreamWorker.OnDelivery | apps/reddit-kafka/src/stream/worker.py:279-291 | a reported failure enters the error list, a success changes nothing but the message's fate |
| Worker.StreamWorker.FlushDeliveryBatch | apps/reddit-kafka/src/stream/worker.py:293-313 | passes exactly if the flush returned, left nothing queued and no failure was reported; takes the error list whenever the flush returned |
| Worker.FailedSaveIsSwallowed | apps/reddit-kafka/src/stream/worker.py:328-338 | whatever a checkpoint write throws but a cancellation raises nothing and processing goes on; what a flush throws becomes the fatal Kafka error |
| Worker.StreamWorker.ProcessComment | apps/reddit-kafka/src/stream/worker.py:227-277 | a duplicate and a rejected comment change nothing, the producer's errors are raised, an accepted comment is produced and counted, and a full batch is flushed and saved; checkpoints only this comment, only with everything delivered, and never after a failure |
| Worker.StepDelivery | apps/reddit-kafka/src/stream/worker.py:227-313 | every step keeps: failures of a live worker are in the error list, and every checkpoint covers delivered messages only |
| Worker.StepBatch | apps/reddit-kafka/src/stream/worker.py:260-265 | every step keeps: produced messages are whole batches plus the current count |
| Worker.StepStop | apps/reddit-kafka/src/stream/worker.py:201-221 | every step keeps: since the stop event at most one message was or is about to be produced |
| Worker.StepDrain | apps/reddit-kafka/src/stream/worker.py:131-149 | every step keeps: `run` is past its drain only when both tasks have ended, and cancels both meanwhile |
| Worker.CancellationEndsTheStream | apps/reddit-kafka/src/stream/worker.py:176-225 | from every await point the handlers let a cancellation through |
| Worker.RejectedIsSkipped | apps/reddit-kafka/src/stream/worker.py:244-277 | whatever is wrong with a comment before it reaches the producer, fatal classes included, it is recorded and skipped, and the data is unchanged |
| Worker.DuplicateIsSkipped | apps/reddit-kafka/src/stream/worker.py:228-233 | the comment of this fetch's checkpoint is skipped |
| Worker.ProducerErrorEndsTheLoop | apps/reddit-kafka/src/stream/worker.py:247-258 | an error of produce or poll ends the loop, with nothing counted and nothing saved |
| Worker.AcceptedIsCounted | apps/reddit-kafka/src/stream/worker.py:260-265 | an accepted comment is produced and counted, and the last of a batch starts the flush |
| Worker.CleanFlushIsSaved | apps/reddit-kafka/src/stream/worker.py:263-265 | after a clean flush the checkpoint of this comment is attempted and the loop goes on with an empty batch, whether or not the write succeeds |
| Worker.OtherFlushEndsTheLoop | apps/reddit-kafka/src/stream/worker.py:293-313 | a flush that raises, leaves messages or reports a failure ends the loop, with nothing saved |
| Worker.RecordedErrorDecides | apps/reddit-kafka/src/stream/worker.py:388-414 | where each class of recorded error leads the loop |
| Worker.SessionLeads | apps/reddit-kafka/src/stream/worker.py:176-225 | where a call, a fetch, an empty yield, a comment, the stream's end and an error of the fetch lead the loop |
| Worker.StopIsSeen | apps/reddit-kafka/src/stream/worker.py:178-207 | a stop request is seen before the next call and before the next comment is looked at |
| Worker.WatchLeads | apps/reddit-kafka/src/stream/worker.py:347-386 | where each outcome of a refresh and of a heartbeat leads the watchdog, and what the script does to the lease |
| Worker.FinalSaveOnShutdown | apps/reddit-kafka/src/stream/worker.py:120-160 | the final save follows a cancellation and the watchdog's end, and not a stream that ended by itself |
| Worker.NoReportNoError | apps/reddit-kafka/src/stream/worker.py:279-313 | while no failure is reported none is remembered, so a complete flush is a clean one |
| Worker.DeliveredBeforeCheckpoint | apps/reddit-kafka/src/stream/worker.py:260-265 | in every run, whenever the checkpoint is set to a comment, every message this worker produced up to and including it has been delivered |
| Worker.NoCheckpointAfterFailure | apps/reddit-kafka/src/stream/worker.py:293-313 | after a reported delivery failure no comment checkpoint is ever written |
| Worker.FailureEndsTheLoop | apps/reddit-kafka/src/stream/error_handler.py:32-40 | the first flush that returns after a failure raises the fatal error, and the loop ends |
| Worker.BatchConservation | apps/reddit-kafka/src/stream/worker.py:260-265 | while the loop lives, produced = interval * checkpoint attempts + comments since, across retried fetches and rejected comments |
| Worker.ReplayWindow | README.md:265-267 | at every moment of every run, at most one interval of messages, and one more for each checkpoint write that failed since the last success, lies beyond the last stored checkpoint; fewer between comments |
| Worker.ReplayWindowIsMet | README.md:265-267 | there is a run that waits for its first checkpoint write with exactly one interval delivered |
| Worker.AtMostOneAfterStop | apps/reddit-kafka/src/stream/worker.py:201-221 | wherever lock loss strikes, at most one more comment is produced |
| Worker.OneAfterStopHappens | apps/reddit-kafka/src/stream/worker.py:201-221 | and there is a run in which one is |
| Worker.NothingAfterRelease | apps/reddit-kafka/src/stream/worker.py:131-172 | however often `run` is cancelled, the release is attempted only after both tasks ended, and nothing is produced or checkpointed from then on |
| Worker.EveryExitReleases | apps/reddit-kafka/src/stream/worker.py:141-172 | wherever the tasks wait when the drain begins, it completes, the release is attempted, and the lease no longer holds this token |
| Worker.OnlyLateCancelSkipsRelease | apps/reddit-kafka/src/stream/worker.py:151-172 | `run` ends without a release attempt only if it was cancelled during the final save or the release |
| Worker.OwnTokenOnly | apps/reddit-kafka/src/stream/worker.py:162-165 | no refresh or release of the worker, however late, changes a key that does not hold its own token |
| Flusher.CheckpointFlusher.ExecutePipeline | apps/reddit-kafka/src/tasks/checkpoint_flusher.py:105-111 | reply 2i is the metadata and reply 2i + 1 the checkpoint of id i |
| Flusher.CheckpointFlusher.Partition | apps/reddit-kafka/src/tasks/checkpoint_flusher.py:113-137 | every id is stale, has nothing to flush, or is in the batch with its parsed checkpoint |
| Flusher.CheckpointFlusher.UpsertCheckpoints | apps/reddit-kafka/src/tasks/checkpoint_flusher.py:151-193 | all rows of the batch are upserted, or after a failure none |
| Flusher.CheckpointFlusher.Flush | apps/reddit-kafka/src/tasks/checkpoint_flusher.py:96-149 | for any iteration order a flush is the map override by the owned streams' parsed checkpoints and prunes exactly the foreign entries; what each failing command leaves undone |
| Flusher.BatchOverrides | apps/reddit-kafka/src/tasks/checkpoint_flusher.py:113-137 | upserting the batch in iteration order equals the order-free override |
| Flusher.PruningStale | apps/reddit-kafka/src/tasks/checkpoint_flusher.py:113-141 | removing the collected stale ids leaves exactly the entries whose metadata names this instance, and nothing is stale exactly if nothing is to be pruned |
| Flusher.FlushTwice | apps/reddit-kafka/src/tasks/checkpoint_flusher.py:96-149 | a second flush with nothing written in between changes nothing |
| Flusher.FlushedRow | apps/reddit-kafka/src/tasks/checkpoint_flusher.py:113-146 | row by row: the comment id is the checkpoint's, the time its parsed one, and a stream that is not indexed, not this instance's, without a checkpoint or with an unparsable time keeps its row |
| Flusher.PrunedEntries | apps/reddit-kafka/src/tasks/checkpoint_flusher.py:113-141 | what stays indexed is exactly what has metadata that names this instance |
| Flusher.LoneFlush | apps/reddit-kafka/src/tasks/checkpoint_flusher.py:96-149 | an undisturbed flusher of the interleaved system does the map override, and a failed upsert changes no row |
| Flusher.LoneFlushOnStop | apps/reddit-kafka/src/tasks/checkpoint_flusher.py:195-227 | the flush at a stop writes the one row of a stream whose checkpoint parses |
| Flusher.StepHistory | apps/reddit-kafka/src/tasks/checkpoint_flusher.py:106-146 | every step of every flusher, and any change of Redis, keeps rows and pending batches historical |
| Flusher.RowsAreHistory | apps/reddit-kafka/src/tasks/checkpoint_flusher.py:96-193 | every Postgres row is untouched or the parse of a value its Redis checkpoint held at that or an earlier moment, for any number of interleaved flushers |
| Migrations.Database.ApplyFile | apps/reddit-kafka/src/migrations.py:105-129 | one file: read, compared if recorded before the pass, else run and inserted, failing on a name the pass has already inserted; a script with a visible character has to run and one of blanks is not handed over |
| Migrations.PassesOneMore | apps/reddit-kafka/src/migrations.py:105-129 | the table inside the transaction decides exactly when one more file keeps a list passing, repeated names included |
| Migrations.Database.ApplyMigrationFiles | apps/reddit-kafka/src/migrations.py:89-130 | passes exactly if every listed file is readable, unchanged if recorded, and runnable and recordable if pending; then exactly the pending files were applied in list order |
| Migrations.Database.ExecuteMigrations | apps/reddit-kafka/src/migrations.py:138-146 | commits all of that or changes nothing |
| Migrations.MigrationsRunOnce | apps/reddit-kafka/src/migrations.py:110-129 | over any sequence of runs no version is applied twice, the table is the starting one plus exactly the applied files, and the driver saw exactly their scripts |
| Migrations.AppliedFilesAreExecuted | apps/reddit-kafka/src/migrations.py:79-86 | over any sequence of runs every applied file with a visible character was handed to the driver, in the order of application and as often, and no script of blanks ever was |
| Migrations.PendingFilesMustRun | apps/reddit-kafka/src/migrations.py:105-129 | a pass succeeds only if every listed file is read, every recorded one is unchanged, and every pending one with a visible character ran and was recorded |
| Migrations.RecordedAreApplied | apps/reddit-kafka/src/migrations.py:121-129 | the table holds each applied file's own checksum |
| Migrations.ChecksumsAreStable | apps/reddit-kafka/src/migrations.py:110-117 | a recorded checksum never changes |
| Migrations.SecondRunDoesNothing | apps/reddit-kafka/src/migrations.py:110-117 | an identical run after a successful one succeeds and executes nothing |
| Migrations.Runner.Round | apps/reddit-kafka/src/migrations.py:57-76 | one attempt: it ends the loop by success, a non-retryable error or a deadline already passed, or else sleeps the smaller of 10 s and what remains |
| Migrations.Runner.RunWithRetry | apps/reddit-kafka/src/migrations.py:51-76 | ends after 1 to 61 attempts and at most 600 s of requested sleep, in success of the last attempt or with the database unchanged; instant retryable failures use all 61 |

## Left out

- FastAPI routes, lifespan wiring, settings, Terraform, containers: plumbing.
- asyncpraw, librdkafka, Glue, Avro and Pydantic internals: an arbitrary comment sequence, arbitrary delivery outcomes, a serializer that accepts or rejects.
- The Postgres `streams` and `stream_errors` tables and the Redis error list: written and never read back by the modelled code.
- `StreamManager._tasks`, the stop poller and `_run`: the manager appears as the program that creates, takes the lease, rolls back and activates; its status writes are arbitrary status writers.
- The purging delete as a concurrent client: no caller uses it; its effect is part of the delete script's contract.
- Watchdog.RefreshLoop.Run: nobody else touches the leases during the method, whoever holds them; the interleaved form is the transition system of the same module.
- Store.StreamRegistry.CreateStream: runs without interference, like the other registry methods, so it never loses its claim; interleavings and the lost claim are in module Protocol.
- CircuitBreakers.CircuitBreaker.Call: no other call runs meanwhile; interleaved calls are the events of the same module.
- Worker.SaveCheckpoint: the final checkpoint rewrite is a stage of the shutdown without its Redis read and write; its write is one of the arbitrary checkpoint writes of module Protocol.
- Migrations.Runner.RunWithRetry: a COMMIT whose outcome is lost is not modelled, and an attempt may take any time because the code does not interrupt it.
- Flusher.CheckpointFlusher.Flush: the row's `updated_at` column, which is NOW() on every upsert.
- ISO timestamp parsing: the flusher works for any parser that returns a time or fails.
- Liveness that depends on network recovery, Redis failover, and clocks that step back.
