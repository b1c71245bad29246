# The job platform, verified

A service accepts jobs over an HTTP API, keeps them in PostgreSQL, dispatches them
through a transactional outbox and RabbitMQ, and executes them in workers. A job runs
at least once, its owner never has more running jobs than allowed, and nothing that
crashes, is delivered twice or fails to commit may lose a job or let a stale worker
write. This project models the parts of the service that these promises rest on, and
proves them.

## The dispatch protocol

`Protocol.dfy` is a transition system. Its state is the committed tables of jobs and
outbox events, the broker's messages, and one session per open transaction, which holds
row locks and stages its writes until `Commit` makes all of them visible. A step is one
statement of the publisher, of a worker, of the recovery or of the API, one exchange
with the broker, a commit, or a crash, so a sequence of steps is an interleaving of any
number of processes.

- `JobState.dfy`, `JobRows.dfy`, `Outbox.dfy`: statuses, rows, and the conditional
  updates, each with its WHERE and its SET part.
- `ProtocolInvariant.dfy` states the global invariant; `ProtocolSteps.dfy`,
  `ProtocolShared.dfy` and `ProtocolCommit.dfy` prove that every step keeps it.
- `ProtocolRuns.dfy`, `ProtocolHonesty.dfy` and `ProtocolTakeover.dfy` prove what holds
  over whole runs: what no run does, why a column has its value, and when a worker's
  claim stops being its row's.
- `Cluster.dfy` is the same system as a class whose methods are the repositories'
  statements. It records its run, so what holds over runs holds of the programs that
  use it. `Yield` runs any number of steps of other processes between two statements.
  The flag `calm` says that nobody else runs and that the database refuses nothing; with
  it the contracts give exact results.
- `JobWorker.dfy`, `OutboxPublisher.dfy`, `StaleRunningRecovery.dfy` and
  `JobService.dfy` are the programs of app/workers and the cancel of
  app/application/services/jobs.py, as methods with loops.
- `Rescue.dfy` runs these programs from an arbitrary reachable state to show that any
  job can still be brought to its end.
- `Deadlock.dfy` says who waits for whom, and when transactions deadlock;
  `Backoff.dfy` says when a job can start before its dispatch event is due.
- `Scripts.dfy` writes continuations of a run down as sequences of steps;
  `Scenarios.dfy` has runs that show what the protocol does not promise.
- `Selection.dfy` is the ORDER BY with LIMIT of the two batch queries.

Assumptions: identifiers and tokens are fresh; isolation is READ COMMITTED with row
locks; rows of jobs and users are never deleted; the broker delivers at least once.
Clock readings are arguments of the steps, and different processes may read different
ones; in `Cluster.dfy` the clock of one process does not go back. The cap, the lease
and the retries of a job are symbolic, and M is min(max_retries + 1, 4); the table fixes
max_retries at 3 (app/models/job.py:34), which none of the proofs needs.

## The other parts

- `Creation.dfy`: concurrent create_job calls as a transition system, and its
  linearizability; `CreateJob.dfy`: the call as a program.
- `Keyset.dfy`: the page query, the page, and the walk along the cursors.
- `RateLimiter.dfy`: the two Redis scripts and the limiter over them.
- `ListCache.dfy`: the versioned page cache, two commands for each access, beside the
  table that the pages are read from.

## Where the code differs from what one may expect

- A page can be returned after an invalidation when the version key expired in between
  and the version counted up to the same number again
  (`ListCache.ExpiredVersionsBringAPageBack`). Otherwise it cannot.
- The cache does not tell a missing cursor from an empty one
  (app/infrastructure/redis/job_list_cache.py:105): a request with an empty cursor is
  answered from the cached first page (`ListCache.EmptyCursorsHitTheFirstPage`), although
  without the cache it is refused.
- The publisher's commit of a job from pending to queued is never announced to the
  cache: the publisher is built without a notifier (app/cli/run_outbox_publisher.py:28-32,
  app/workers/outbox_publisher.py:107-131), although README.md:203 speaks of invalidation
  for the workers' status changes. So the first status change of a job stays unseen in a
  cached list until another change is announced or the page is too old
  (`ListCache.UnannouncedChangesStayUnseen`). When a hit is as new as its request, and
  when it is not, is `ListCache.HitsAreListings`.
- The cache drops the attempt count of a job; the response does not contain it.
- A rejection, or an answer that is lost, takes room in its window that no release gives
  back (`RateLimiter.AcceptedWhenThereIsRoom`).
- DESIGN.md:21 says that recovery locks the owner row and then the job row. The code
  locks the job rows of its batch first and then, row by row, the owners, which it keeps
  to the commit (app/workers/stale_running_recovery.py:42-87). So transactions deadlock,
  exactly when recoveries block each other, directly or through one worker
  (`Deadlock.DeadlocksAreTangledRecoveries`): a worker, which locks the owner first,
  against one recovery (`Scenarios.WorkerAndRecoveryDeadlock`), or two recoveries alone
  (`Scenarios.RecoveriesDeadlock`), as every worker process has one
  (app/cli/run_job_worker.py:92). The database ends a deadlock by refusing a statement.
- Executions of one job can overlap (`Scenarios.ExecutionsOverlap`). A worker's claim is
  its row's exactly as long as no recovery has committed that found the lease over
  (`ProtocolTakeover.CurrentUnlessTakenBack`), so every overlap follows such a takeover
  (`ProtocolTakeover.OverlapsFollowATakeover`).
- A retry can start before its backoff is over: by a second message
  (`Scenarios.RetryStartsEarly`), or with an event that the job had already
  (`Scenarios.RetryKeepsAnOldEvent`). It can do so exactly if a message names the job or
  its event is due earlier (`Backoff.EarlyStarts`); the message whose execution failed is
  one, until it is acknowledged.
- publish_attempts and the delay of a failed event need not agree when several publishers
  fail with it (`Scenarios.FailuresCountFromTheSameNumber`): the failure is noted after
  the lock is gone (app/workers/outbox_publisher.py:155-184). They agree exactly if nobody
  else's failure was counted in between, or the delay is at its cap
  (`Scenarios.DelaysFollowTheCount`).

## Model

| member | source | states |
|---|---|---|
| `JobRows.UpdatesKeepTheShape` | app/repositories/jobs.py:247-466 | any of the conditional updates, on any well-shaped row, leaves it well shaped: running iff token, worker and lease are set; finished_at iff terminal; started_at iff attempt_count > 0; started_at and cancel_requested_at are never overwritten |
| `JobRows.UpdatesFollowThePolicy` | app/domain/job_state.py:13-29 | an update that matches makes an allowed transition if and only if it is neither the cancellation request nor the failure without execution of a job that is not running |
| `JobRows.EveryEdgeIsTaken` | app/domain/job_state.py:13-29 | the policy graph has no other edges than those that some update takes from some well-shaped row |
| `JobRows.RowStepUsesUpChanges` | app/repositories/jobs.py:247-466 | a status change uses up at least one of the changes left, counted from status and attempts; no step gives one back |
| `JobRows.UpdateIsRowStep` | app/repositories/jobs.py:247-466 | exactly when the attempts bound, the request behind a cancellation and the policy graph are respected is an update a legal row step |
| `Outbox.RetryDelayIsBoundedAndMonotone` | app/workers/outbox_publisher.py:193-195 | the delay after a failed publish is in 1..300 seconds and never shrinks |
| `Outbox.RetryDelaysDouble` | app/workers/outbox_publisher.py:193-195 | the first delay is one second, and every further one twice the one before, up to 300 |
| `ProtocolCommit.StepKeepsInv` | app/workers/job_worker.py:99-427 | every step of every process keeps the global invariant of tables, queue and open transactions |
| `ProtocolCommit.CommitKeepsCap` | app/workers/job_worker.py:115-236 | a commit keeps every owner within the cap, because only the holder of the owner lock raises the count it has counted |
| `ProtocolCommit.CommitKeepsWake` | app/workers/job_worker.py:187-199 | a commit of any session leaves no pending or queued job without an event or a message that wakes it |
| `ProtocolCommit.CommitKeepsEvents` | app/repositories/outbox.py:82-96 | a commit never leaves a job with two unpublished events, although others run between the check and the commit |
| `ProtocolCommit.CommitLeavesOthers` | app/db/uow.py:58-77 | a commit takes nothing away that another open transaction relies on |
| `ProtocolShared.SendKeepsInv` | app/workers/outbox_publisher.py:107-123 | sending the message before the commit, with the job row locked, keeps the invariant |
| `ProtocolShared.BrokerStepKeepsInv` | app/workers/job_worker.py:77-97 | deliveries, acknowledgements and crashes with redelivery keep the invariant |
| `ProtocolShared.RecordFailureKeepsInv` | app/repositories/outbox.py:134-153 | the failure note, written in a second transaction after the lock is gone, keeps the invariant |
| `ProtocolShared.CreateKeepsInv` | app/application/services/jobs.py:84-98 | a committed creation, job and event together, keeps the invariant |
| `ProtocolSteps.PublishStatementKeepsInv` | app/workers/outbox_publisher.py:75-131 | every statement of the publisher keeps the invariant, staged rows included |
| `ProtocolSteps.ClaimStatementKeepsInv` | app/workers/job_worker.py:111-236 | every statement of a claiming worker keeps the invariant |
| `ProtocolSteps.ExecuteStatementKeepsInv` | app/workers/job_worker.py:250-427 | every statement of an executing or settling worker keeps the invariant |
| `ProtocolSteps.RecoverStatementKeepsInv` | app/workers/stale_running_recovery.py:38-141 | every statement of the recovery keeps the invariant |
| `ProtocolSteps.CancelStatementKeepsInv` | app/application/services/jobs.py:137-183 | every statement of the API's cancel keeps the invariant |
| `ProtocolRuns.ReachableKeepsInv` | app/workers/job_worker.py:99-427 | the invariant holds in every state of every run, from the empty system on |
| `ProtocolRuns.NoJobIsLost` | app/workers/outbox_publisher.py:75-131 | in every reachable state a pending job has an event to publish, a queued one an event or a message that can still start it, and a running one is found by recovery exactly from the end of its lease |
| `ProtocolRuns.RowsAreWellShaped` | app/repositories/jobs.py:164-466 | in every reachable state, every row has exactly the columns of its status, and attempts within its bounds |
| `ProtocolRuns.RunningCapHolds` | app/workers/job_worker.py:115-236 | in every reachable state the committed running jobs of an owner are within the configured cap |
| `ProtocolRuns.OneUnpublishedEventPerJob` | app/repositories/outbox.py:82-96 | in every reachable state a job has at most one unpublished event, although others run between the check and the commit |
| `ProtocolRuns.MessagesNameTheLockedJob` | app/repositories/outbox.py:62-78 | the payload of every event names the event and the job of its row, so the message names the job that was locked |
| `ProtocolRuns.StepMovesRows` | app/repositories/jobs.py:247-466 | from state to state, rows appear only as new pending jobs and change only by legal row steps |
| `ProtocolRuns.StatusChangesFollowThePolicy` | app/domain/job_state.py:13-29 | every status change in any run is an edge of the policy graph |
| `ProtocolRuns.StatusChangesAreBounded` | app/workers/job_worker.py:341-345 | changes made plus changes left never exceed 2M+1, with M one more than the retries and four at most: nine in all |
| `ProtocolRuns.GrantsAreTheAttempts` | app/workers/job_worker.py:158-248 | the executions ever granted for a job are its attempt_count, which is at most one more than its retries, and at most four |
| `ProtocolRuns.TokensSettleOnce` | app/repositories/jobs.py:262-373 | a token leaves its row at most once in a run, and leaves no other row |
| `ProtocolRuns.RetiredForGood` | app/repositories/jobs.py:262-373 | a token that no row carries and nobody is about to commit never comes back |
| `ProtocolRuns.StaleWorkersNeverWrite` | app/workers/job_worker.py:281-427 | a worker whose token is not the row's has nothing staged from then on, as long as it holds the claim |
| `ProtocolRuns.CurrentWorkersAgreeWithTheRow` | app/workers/job_worker.py:237-248 | a worker whose token is the row's holds the row's attempt_count, and the row is running |
| `ProtocolRuns.OverlappingClaimsAreFenced` | DESIGN.md:21-23 | when two sessions have claims of one job, the token of at least one of them is retired for good |
| `Deadlock.WaitsLeadToARecovery` | app/workers/job_worker.py:115-126 | of any three waits in a row, the second or the third is by a recovery, so that no wait is circular without one |
| `Deadlock.DeadlocksAreTangledRecoveries` | app/workers/stale_running_recovery.py:42-87 | in every reachable state, sessions wait in a circle if and only if there are recoveries each of which is blocked by one of them, directly by its owner lock, or by a worker that has the owner and waits for its row |
| `Deadlock.StuckSessionsCannotMove` | app/workers/stale_running_recovery.py:42-87 | a session that waits for a lock can do nothing but be lost, except that a handler may end without asking again |
| `Deadlock.OnlyWaitsHoldUp` | app/workers/job_worker.py:115-126 | in every reachable state, a session with work left can do its next statement if and only if it waits for no lock of another: the waits are all there is to a deadlock |
| `Deadlock.DeadlocksLast` | app/workers/stale_running_recovery.py:42-87 | a deadlock lasts under all steps of the others, until one of its sessions is lost |
| `Scenarios.RecoveriesDeadlock` | app/workers/stale_running_recovery.py:42-87 | a run in which two recovery batches, and no worker, deadlock |
| `Scenarios.WorkerAndRecoveryDeadlock` | app/workers/job_worker.py:115-126 | a run in which a worker with a duplicate message and a recovery deadlock |
| `ProtocolTakeover.CurrentUnlessTakenBack` | app/workers/stale_running_recovery.py:38-60 | as long as a worker holds its claim, the token is the row's if and only if no recovery has committed that read a clock after the end of the lease and took the row back |
| `ProtocolTakeover.OverlapsFollowATakeover` | DESIGN.md:21-23 | two sessions have claims of one job at a time only after one of the claims was taken back, its lease being over |
| `ProtocolTakeover.ClaimsAreLostToRecoveries` | app/workers/stale_running_recovery.py:77-141 | the only step that takes a row from a worker that still holds its claim is the commit of a recovery that found the lease over |
| `Scenarios.ExecutionsOverlap` | DESIGN.md:23 | a run in which two workers execute one job at the same time, the second one under the row's token, after the first claim was taken back at the end of its lease |
| `Backoff.DormantUntilAMessage` | app/workers/job_worker.py:77-97 | a job that is not running and has no message does not start before a publisher sends one for it |
| `Backoff.EarlyStarts` | app/workers/job_worker.py:385-411 | in every reachable state, a queued job whose event has not failed and is in no hands can start before a time, by the clocks of the worker and of whoever locks the event, if and only if a message names it or the event is due before that time |
| `Backoff.MessageStartsTheJob` | app/workers/job_worker.py:99-248 | a queued job with a message can start at any time that a clock shows, with its event unpublished, and without touching another row if its owner has room |
| `Scenarios.RetryStartsEarly` | app/workers/job_worker.py:385-411 | a run in which a retry starts one second after the failure, while its own event is due after five |
| `Scenarios.RetryKeepsAnOldEvent` | app/repositories/outbox.py:82-96 | a run in which a retry starts before its backoff because the job had an event already |
| `Scenarios.EveryAttemptIsReached` | app/workers/job_worker.py:341-345 | for every number of retries, a run in which the job is executed once more than that, or four times if that is less |
| `Scenarios.FailuresCountFromTheSameNumber` | app/workers/outbox_publisher.py:155-184 | a run in which two failures are counted, and the delay is that of the first |
| `Scenarios.DelaysFollowTheCount` | app/workers/outbox_publisher.py:155-195 | the delay of a noted failure is the one of the count after it if and only if nobody else has counted a failure since the number was read, or both numbers are at the cap of the delay |
| `Outbox.DelaysAgree` | app/workers/outbox_publisher.py:193-195 | two counts have the same delay if and only if they are equal or both at least nine |
| `ProtocolHonesty.RunningJobsAreCancelledOnRequest` | app/workers/job_worker.py:250-279 | a running job ends cancelled only if the API committed a request for it earlier in the run |
| `ProtocolHonesty.RequestsAreWriteOnce` | app/repositories/jobs.py:421-440 | cancel_requested_at never changes once it is set |
| `ProtocolHonesty.StartsAreWriteOnce` | app/repositories/jobs.py:262-290 | started_at never changes once it is set, through all retries |
| `ProtocolHonesty.PublishedMeansDealtWith` | app/workers/outbox_publisher.py:75-131 | an event becomes published only in a commit of its publisher, after the broker accepted a live message for its job or the locked job was seen to need none |
| `ProtocolHonesty.EventsMoveForward` | app/repositories/outbox.py:122-153 | an event keeps its job and payload, its failures only grow in number, and it is put off only together with a failure that is counted |
| `ProtocolHonesty.PublicationsAreWriteOnce` | app/repositories/outbox.py:122-132 | published_at is set at most once |
| `ProtocolHonesty.PendingJobsLeaveHonestly` | app/workers/outbox_publisher.py:95-131 | a job leaves pending only by a cancel or together with the publication of an accepted message |
| `Cluster.OthersSpareALockHolder` | app/repositories/jobs.py:212-245 | one step of another session changes no row that a session has locked, not its message, and not whether its locked jobs have an unpublished event |
| `Cluster.OwnersStandStill` | app/workers/job_worker.py:115-183 | while a session has an owner locked, no step of another one starts a job of that owner or creates one: what is counted under the lock holds until the commit |
| `Cluster.Cluster.Yield` | app/repositories/jobs.py:212-245 | nor do any number of steps of any number of other processes, in any order; the clock of the process does not go back |
| `Cluster.StagedEventWakes` | app/repositories/outbox.py:82-96 | the staged result of create-if-absent gives the job an unpublished event and keeps the one it had |
| `Cluster.Cluster.Commit` | app/db/uow.py:73-77 | all staged rows become visible at once, or the session is lost and nothing changes |
| `Cluster.Cluster.UpdateClaimedRow` | app/repositories/jobs.py:292-373 | the settling update matches exactly a running row with the token of the claim, and then stages the row as the verdict says; otherwise the token is retired for good |
| `Cluster.Cluster.PollCancel` | app/workers/job_worker.py:272-279 | the check answers yes exactly for a missing row, another token, or a request |
| `Cluster.Cluster.MarkRunning` | app/repositories/jobs.py:262-290 | stages the claim with the next attempt number and a lease of the configured length, under a token that no row and no other claim has |
| `Cluster.Cluster.TryLockEvent` | app/repositories/outbox.py:111-120 | locks an unpublished event that nobody else has locked, and that was due when the batch was claimed or has failed since; it answers no only if the event is published or somebody else has locked it |
| `Cluster.Cluster.ClaimDueBatch` | app/repositories/outbox.py:98-109 | returns unpublished unlocked events with available_at not after the time, by available_at and created_at; if it leaves one out, the limit is reached and the one left out comes no earlier |
| `Cluster.Cluster.ClaimsLast` | app/workers/outbox_publisher.py:45-58 | whatever happened since, a claimed event was due at the time of the claim or has failed since |
| `Cluster.Cluster.PublishDispatch` | app/workers/outbox_publisher.py:107-123 | one message for the locked job is in the broker, or none; an accepted message may still be reported as failed |
| `Cluster.Cluster.LockExpired` | app/repositories/jobs.py:528-544 | locks running unlocked rows with lease_expires_at before the time, by lease_expires_at, created_at and id; if it leaves one out, the limit is reached and the one left out comes later |
| `Cluster.Cluster.QueuedJobsHaveAnAttemptLeft` | app/workers/job_worker.py:158-182 | the branch that fails a queued job without executing it is never taken |
| `Cluster.Cluster.ClaimFacts` | app/workers/job_worker.py:341-345 | an executing claim has an attempt number between 1 and M, M at most 4, so the backoff lookup stays within its table |
| `Selection.SelectFirst` | app/repositories/jobs.py:533-544 | ORDER BY with LIMIT: distinct rows, as many as there are up to the limit, sorted, and none left out that comes before one taken |
| `Selection.NothingJumpsTheQueue` | app/repositories/outbox.py:98-109 | a row that strictly precedes a taken one is taken too, and earlier |
| `Selection.PassesAreTheRoundedQuotient` | app/workers/outbox_publisher.py:60-73 | the passes that empty a backlog are its size divided by the batch size, rounded up |
| `JobWorker.ClaimThenExecute` | app/workers/job_worker.py:77-97 | an undisturbed claim followed by an undisturbed execution is the specified handling of the message |
| `JobWorker.JobWorker.LockCandidate` | app/workers/job_worker.py:115-136 | locks the owner, then the job; alone, this always succeeds and changes no table |
| `JobWorker.JobWorker.DeferForCapacity` | app/workers/job_worker.py:184-215 | whatever the others do, the job has an unpublished event after the commit: the one that it had when the worker looked, or a new one that is due three seconds after the claim; alone, a new one only if it had none |
| `JobWorker.JobWorker.ClaimExecution` | app/workers/job_worker.py:99-248 | whatever the others do, a granted claim leaves the row running under its token with its lease, and otherwise the job is not queued or has an event; alone, exactly by status and cap it drops, defers or starts |
| `JobWorker.JobWorker.RunSleep` | app/workers/handlers/sleep.py:16-28 | whatever the others do, asks before each sleep of a quarter of a second, or of what is left, and sleeps only after an answer that no one wants it to stop; returns when all of the time is slept, and raises exactly after an answer that someone does, or a check that fails |
| `JobWorker.JobWorker.MarkCompleted` | app/workers/job_worker.py:281-311 | whatever the others do, the commit leaves the row completed, or the claim is fenced off for good and nothing is written; alone, nothing else changes |
| `JobWorker.JobWorker.MarkCancelled` | app/workers/job_worker.py:313-339 | whatever the others do, the commit leaves the row cancelled, with a request on it, or the claim is fenced off; only a session that saw a cancellation can call it; alone, nothing else changes |
| `JobWorker.JobWorker.MarkFailed` | app/workers/job_worker.py:347-383 | whatever the others do, the commit leaves the row failed with the shortened error, or the claim is fenced off; alone, nothing else changes |
| `JobWorker.JobWorker.ScheduleRetry` | app/workers/job_worker.py:385-427 | whatever the others do, the commit leaves the row queued with the shortened error and an unpublished event, which it had when the worker looked or which is due after the 5, 15 or 30 seconds of the attempt; or the claim is fenced off; alone, a new event is made only if there was none |
| `JobWorker.JobWorker.FinalizeFailure` | app/workers/job_worker.py:341-345 | whatever the others do, the row shows the error, and is queued again if the attempt is among the retries and the first three, with an event to publish, and failed otherwise; alone, the event is due after 5, 15 or 30 seconds |
| `JobWorker.JobWorker.ExecuteClaim` | app/workers/job_worker.py:250-270 | the commit leaves the row as its verdict says or the claim is fenced off; the verdict is one that the handler allows, and a sleep that completes its job had asked before every quarter of a second, with no request made before it last asked; alone, exactly as the handler ends |
| `JobWorker.JobWorker.HandleMessage` | app/workers/job_worker.py:77-97 | every statement is a protocol step under any interference, and an execution is one by its handler; alone, the message is gone, other rows are untouched, and the job and its events are as specified for its status, the cap, the attempts and the handler |
| `OutboxPublisher.ProcessedIsNotDue` | app/workers/outbox_publisher.py:155-184 | published or failed, a processed event is not due at the time of its processing |
| `OutboxPublisher.BatchLeavesTheDueSet` | app/workers/outbox_publisher.py:45-58 | a pass takes exactly its batch, the batch size or all, out of the due events |
| `OutboxPublisher.OutboxPublisher.RecordFailureAfterRollback` | app/workers/outbox_publisher.py:155-184 | whatever the others do, the event is published, or one more failure is counted, the error is noted, and the event waits exactly the delay of its next attempt from the time of the failure; alone, nothing else changes |
| `OutboxPublisher.OutboxPublisher.ProcessClaimedEventOnce` | app/workers/outbox_publisher.py:75-131 | whatever the others do, a processed event is published, or one more failure is counted, noted and puts it off by its delay at least, and one that is passed over is published or locked by somebody else; alone, exactly this event is published or put off, its pending job is queued only with a publication, and then its message is in the broker |
| `OutboxPublisher.OutboxPublisher.PublishDueBatchOnce` | app/workers/outbox_publisher.py:45-58 | takes unpublished due unlocked events, the earliest first, up to the limit; whatever the others do, the number it returns is of events of the batch, in their order, that are published or have one more failure counted, and every other one was found published or locked by somebody else on the way; alone, it is all of the batch, whatever fails |
| `OutboxPublisher.OutboxPublisher.PublishUntilIdle` | app/workers/outbox_publisher.py:60-73 | at a fixed clock, alone, repeated passes end after ceil(due / batch) of them, and no unpublished event has an available_at up to the clock; every due event was processed once, exactly the pending jobs of the published ones are queued, and their messages are in the broker |
| `StaleRunningRecovery.RecoveryUpdateRecovers` | app/workers/stale_running_recovery.py:91-126 | the chosen update requeues a row whose attempts are among its retries and the first three, and fails any other, with the message of the case |
| `StaleRunningRecovery.CommitRecovers` | app/workers/stale_running_recovery.py:117-126 | the commit of a batch recovers each locked row, gives each requeued one an unpublished event, and touches nothing else |
| `StaleRunningRecovery.RecoveryShrinksTheExpiredSet` | app/workers/stale_running_recovery.py:38-60 | a batch takes exactly its rows out of the expired ones |
| `StaleRunningRecovery.StaleRunningRecovery.RecoverStaleJob` | app/workers/stale_running_recovery.py:77-141 | recovers one locked row within the batch, under interference of others |
| `StaleRunningRecovery.StaleRunningRecovery.RecoverDueBatchOnce` | app/workers/stale_running_recovery.py:38-60 | takes the unlocked running rows with the earliest leases before the clock, then by created_at and id, up to the limit; recovers each of them under any interference, returns their number, and alone touches no other job |
| `StaleRunningRecovery.StaleRunningRecovery.RecoverUntilIdle` | app/workers/stale_running_recovery.py:62-75 | at a fixed clock, alone, repeated batches end after ceil(expired / batch) of them with every expired row recovered, and no running row has a lease before the clock |
| `JobService.CancelUpdateCancels` | app/application/services/jobs.py:151-181 | the chosen update does what the state of the job calls for, and without one there is nothing left to do |
| `JobService.EndsAreFinal` | app/repositories/jobs.py:247-466 | the row of a job that ended never changes again, in any column, in every continuation of the run |
| `JobService.StoppingIsForGood` | app/repositories/jobs.py:402-440 | a cancelled job, or one with a request, is so in every later state |
| `JobService.JobService.CancelJob` | app/application/services/jobs.py:137-183 | not found exactly if there is no such job or the user is neither its owner nor an administrator; whatever the others do, an accepted answer shows the row, cancelled or asked to stop, and a refusal means that the job has completed or failed; alone, exactly the specified row changes |
| `Rescue.EveryJobCanFinish` | app/workers/stale_running_recovery.py:38-60 | from every reachable state, the recovery's batches, the publisher's batches and a worker can continue the run so that any given job ends |
| `Rescue.StopAll` | app/workers/stale_running_recovery.py:38-60 | when all leases are over, recovery leaves nothing running |
| `Rescue.Wake` | app/workers/outbox_publisher.py:75-131 | the publisher's batches leave a waiting job with a message that can start it |
| `Creation.Linearizable` | app/application/services/jobs.py:61-120 | the calls that took effect are a run of the one-call-at-a-time specification that ends with the committed rows, and each answered call is in it once with its answer |
| `Creation.EffectsFollowRealTime` | app/application/services/jobs.py:61-120 | a call answered before another began precedes it in that order |
| `Creation.AnswersNameTheJob` | app/application/services/jobs.py:221-225 | every answer names the one job of the owner and key, and is a conflict exactly when the request hash differs from the job's |
| `Creation.OneJobPerSlot` | app/models/job.py:35 | an answered call has a job, and no second one has its owner and key |
| `Creation.OneCallCreates` | app/application/services/jobs.py:108-111 | at most one call per owner and key returns created |
| `Creation.OneLogAndOneEventPerJob` | app/application/services/jobs.py:93-98 | every committed job has exactly one creation log and one initial event, each written by a statement of its own that may fail |
| `Creation.ReloadsFindTheJob` | app/application/services/jobs.py:227-238 | the error about a missing job after a conflict is unreachable |
| `Creation.OnlyCreatorsKeepReservations` | app/application/services/jobs.py:99-106 | a call that is over without a new job, after an exception too, has released its reservation, unless that release failed; only a crash leaves it |
| `Creation.CreatorsKeepTheirReservations` | app/application/services/jobs.py:80-111 | a call that creates a job has a reservation to the end if and only if it was granted one |
| `Creation.StepKeepsInv` | app/application/services/jobs.py:61-120 | every step of every call keeps rows unique, inserts exclusive, and effects in agreement with the rows |
| `CreateJob.OthersLeaveTheCall` | app/application/services/jobs.py:72-111 | a step of another call moves neither this call nor a committed row |
| `CreateJob.JobTable.Yield` | app/application/services/jobs.py:72-111 | nor do any number of steps of any number of other calls |
| `CreateJob.JobTable.CreateJob` | app/application/services/jobs.py:61-120 | ends answered, limited or failed, never with the missing-job error; whatever others do, a created job is there with one log and one event, and any other answer is right about the job of the owner and key; who creates holds the reservation that the limiter granted, and nobody else holds one whose release was not lost; alone, it creates exactly when the slot is free |
| `CreateJob.JobTable.InsertRows` | app/repositories/jobs.py:164-190 | inserts, or reloads because a committed row has the owner and key; a call that must wait for another insert may fail |
| `CreateJob.JobTable.CommitRows` | app/application/services/jobs.py:93-98 | whatever other calls do, a confirmed commit leaves the row of the request with exactly one log and one event; alone, nothing else changes; a lost confirmation raises |
| `CreateJob.JobTable.LoadExisting` | app/application/services/jobs.py:227-238 | finds the job that stood in the way and validates the request against it |
| `Keyset.NormalizeLimit` | app/application/services/jobs.py:327-330 | every limit becomes one between 1 and 100, and stays if it is one; without one it is 20 |
| `Keyset.Listing` | app/repositories/jobs.py:499-507 | the sorted list: all rows, in strictly descending (created_at, id) |
| `Keyset.DescendingIsUnique` | app/repositories/jobs.py:499-507 | no other list has the same rows and order |
| `Keyset.PageIsASlice` | app/application/services/jobs.py:334-345 | a page holds exactly the rows between its cursor and the next one, or to the end; it has a next cursor if and only if there is a row after its cursor that it does not hold, and then it is full |
| `Keyset.WalkListsEveryRowOnce` | app/application/services/jobs.py:185-219 | following the cursors to the end, with any inserts in between, lists rows in strictly descending order, none twice, and all that were there at the start |
| `Keyset.LaterPagesHaveRows` | app/application/services/jobs.py:334-345 | every page after the first one has a row, whatever is inserted meanwhile |
| `Keyset.QuietWalkIsTheListing` | app/application/services/jobs.py:185-219 | without inserts the pages together are the sorted list |
| `Keyset.FollowCursors` | app/application/services/jobs.py:185-219 | for every limit, following the cursors of a table at rest ends, with the sorted list |
| `Keyset.CursorAdvances` | app/repositories/jobs.py:546-551 | a next cursor leaves strictly fewer rows to come |
| `RateLimiter.WindowStart` | app/infrastructure/redis/rate_limiter.py:119-124 | the start is the largest multiple of the window length that is not after the time |
| `RateLimiter.RetryAfterSeconds` | app/infrastructure/redis/rate_limiter.py:78-78 | the wait is between one second and one window, and leads exactly to a multiple of the window length |
| `RateLimiter.ResetEpoch` | app/infrastructure/redis/rate_limiter.py:119-124 | the first multiple of the window length after the time |
| `RateLimiter.WaitingReachesTheNextWindow` | app/infrastructure/redis/rate_limiter.py:78-78 | whoever waits that long is in the next window |
| `RateLimiter.CounterIsConserved` | app/infrastructure/redis/rate_limiter.py:18-39 | until the key expires, the counter is the accepted reservations not released plus the rejections and lost answers; an absent key of an open window stands for zero |
| `RateLimiter.KeysOutliveTheirWindow` | app/infrastructure/redis/rate_limiter.py:16-25 | a key expires after the end of its window |
| `RateLimiter.LimitHoldsInAWindow` | app/infrastructure/redis/rate_limiter.py:90-107 | unreleased reservations of a user in a window never exceed the limit |
| `RateLimiter.AcceptedWhenThereIsRoom` | app/infrastructure/redis/rate_limiter.py:90-107 | an answered request is accepted if and only if unreleased reservations, rejections and lost answers together are below the limit |
| `RateLimiter.SlidingIntervalIsBounded` | app/infrastructure/redis/rate_limiter.py:119-124 | any interval of one window length holds at most 2 * limit unreleased reservations of a user |
| `RateLimiter.RateLimiter.IncrementScript` | app/infrastructure/redis/rate_limiter.py:18-25 | one more in a live key, whose expiry stays; a new key has one, and expires five seconds after a window length |
| `RateLimiter.RateLimiter.ReleaseScript` | app/infrastructure/redis/rate_limiter.py:27-39 | one less in a live key, which goes away at one; nothing without the key |
| `RateLimiter.RateLimiter.Reserve` | app/infrastructure/redis/rate_limiter.py:74-107 | granted with the counts of the window, exceeded exactly when there is no room, let through when the script does not run or its answer is lost, counted in the second case |
| `RateLimiter.RateLimiter.Release` | app/infrastructure/redis/rate_limiter.py:109-117 | gives one reservation back, or nothing without Redis |
| `ListCache.PagesComeBack` | app/infrastructure/redis/job_list_cache.py:111-161 | a decoded page equals the encoded one in every response field, and altogether exactly when its attempt counts are zero |
| `ListCache.SharedKeys` | app/infrastructure/redis/job_list_cache.py:98-108 | two queries share a page exactly under one scope, version and limit and one cursor, no cursor being the same as an empty one |
| `ListCache.HitsMatchTheirQuery` | app/infrastructure/redis/job_list_cache.py:28-47 | a hit has the scope, the limit and, up to an empty one, the cursor of the query, is younger than the time to live, and answers as the stored page |
| `ListCache.HitsAreFreshUnlessTheVersionExpired` | app/infrastructure/redis/job_list_cache.py:71-96 | for a hit, no invalidation came between the two looks at the version if and only if the version key did not expire between them |
| `ListCache.InvalidatedPagesAreNotReturned` | app/infrastructure/redis/job_list_cache.py:71-79 | a page stored before an invalidation of its scope is returned to someone who asks after it only if the version key expired in between, for the owner and for administrators |
| `ListCache.HitsAreListings` | app/application/services/jobs.py:185-219 | a hit is the listing of the rows that were read for it; while the version key does not expire, these are as new as the request if and only if nothing of the scope was committed between the read and the first look at the version, and whatever was committed between the looks was invalidated |
| `ListCache.UnannouncedChangesStayUnseen` | app/cli/run_outbox_publisher.py:28-32 | a run in which a job is listed as pending after its publisher's commit, which nobody announces, has queued it |
| `ListCache.EmptyCursorsHitTheFirstPage` | app/infrastructure/redis/job_list_cache.py:105-108 | a run in which a request with an empty cursor gets the page that was stored for no cursor |
| `ListCache.ExpiredVersionsBringAPageBack` | app/infrastructure/redis/job_list_cache.py:71-96 | a run in which it does expire, and the page is returned |
| `ListCache.JobListCache.GetPage` | app/infrastructure/redis/job_list_cache.py:28-47 | looks at the version, then for the page; what it returns is a hit |
| `ListCache.JobListCache.SetPage` | app/infrastructure/redis/job_list_cache.py:49-69 | looks at the version, then stores under it, for the time to live |
| `ListCache.OthersLeaveTheSession` | app/infrastructure/redis/job_list_cache.py:35-37 | steps of other clients and of the database leave a client between its two commands alone |
| `ListCache.JobListCache.Yield` | app/infrastructure/redis/job_list_cache.py:35-37 | so do any number of them |
| `ListCache.JobListCache.ListJobs` | app/application/services/jobs.py:185-219 | returns a hit, or the listing of the owner's rows, or of all, at some moment of the call; alone, exactly the stored page or the listing, which is then stored |
| `ListCache.JobListCache.InvalidateOwner` | app/infrastructure/redis/job_list_cache.py:71-85 | the versions of the owner's list and the administrators' list count one more, or start with one, for a week, in one transaction; or nothing happens |

## Left out

- Deadlock freedom: it does not hold; when a deadlock occurs, and that it lasts, is proved instead. In the programs a wait for a lock either gets the lock or loses the session.
- Retries that start no earlier than their backoff: this does not hold, as two runs show; when a retry can start earlier is proved instead, for a job whose event has not failed yet and is in no publisher's hands.
- Executions of one job that never overlap: this does not hold, as a run shows; that at most one of them has a token that counts, and that one of the claims was taken back before, is proved instead.
- Messages with an invalid body, and RabbitMQ's dead-letter topology: the publisher only sends valid bodies.
- Missing jobs and missing owners in a worker or publisher: rows are never deleted, so these branches are modelled in the protocol only where a row is looked up without a lock, or proved unreachable.
- Log rows other than the creation log, post-commit notifications and log output: they do not influence the tables of the protocol.
- The durations of handlers: sleeping changes nothing; the sleep handler's floating point seconds are real numbers.
- Waiting for the clock: the publisher's and the recovery's endless loops are modelled up to their first idle pass.
- The closing of a broker channel: in `Protocol.dfy` a message whose consumer raised stays unacknowledged (`Stranded`) until its session is lost; the worker program loses its session at once.
- Authorization beyond owner and administrator, HTTP routes, streaming, authentication and configuration parsing.
- Cursor and page texts: base64, JSON, ISO timestamps and SHA-256 are taken as invertible or injective, and cursors that do not decode are not modelled.
- Listing through the cache: that a hit is as new as its request does not hold, as two runs show; when it does, as long as the version key does not expire, is proved instead. The page query itself is a parameter there, and is modelled in `Keyset.dfy`.
- Clocks of the rate limiter: the API and Redis share one clock, and times are after 1970.
- Keyset.FollowCursors: terminates for a table at rest; with inserts that never stop, a walk may go on, and the theorem is about walks that end.
- Locks by foreign keys: a new job waits for whoever has locked its owner's row, in one step that holds no lock itself; the short locks of other inserts are not modelled.
