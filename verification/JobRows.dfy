/**
 One row of the jobs table and the conditional updates that the repository runs
 on it.  An update has a WHERE part, `Matches`, and a SET part, `Updated`; the
 repository reports whether exactly one row matched.
 */
module JobRows {
  import opened Wrappers
  import opened JobState

  const MAX_TOTAL_JOB_ATTEMPTS: nat := 4

  datatype Job = Job(
    owner: nat,
    maxRetries: nat,
    createdAt: int,
    status: Status,
    attempts: nat,
    cancelRequestedAt: Option<int>,
    worker: Option<string>,
    token: Option<nat>,
    leaseExpiresAt: Option<int>,
    startedAt: Option<int>,
    finishedAt: Option<int>,
    lastError: Option<string>,
    updatedAt: int)

  datatype Update =
    | MarkQueued
    | MarkRunning(worker: string, token: nat, leaseExpiresAt: int)
    | MarkCompleted(token: nat)
    | MarkFailed(token: nat, error: string)
    | RequeueRunning(token: nat, error: string)
    | MarkFailedWithoutExecution(current: Status, error: string)
    | CancelPendingOrQueued
    | RequestRunningCancellation
    | MarkCancelled(token: nat)

  function NewJob(owner: nat, maxRetries: nat, now: int): Job {
    Job(owner, maxRetries, now, Pending, 0, None, None, None, None, None, None, None, now)
  }

  // The WHERE clause, once the row id has been found.
  predicate Matches(job: Job, u: Update) {
    match u
    case MarkQueued => job.status == Pending
    case MarkRunning(_, _, _) => job.status == Queued
    case MarkCompleted(token) => job.status == Running && job.token == Some(token)
    case MarkFailed(token, _) => job.status == Running && job.token == Some(token)
    case RequeueRunning(token, _) => job.status == Running && job.token == Some(token)
    case MarkFailedWithoutExecution(current, _) => job.status == current
    case CancelPendingOrQueued => job.status in {Pending, Queued}
    case RequestRunningCancellation => job.status == Running && job.cancelRequestedAt == None
    case MarkCancelled(token) => job.status == Running && job.token == Some(token)
  }

  // The row without a worker, an execution token and a lease.
  function Released(job: Job): Job {
    job.(worker := None, token := None, leaseExpiresAt := None)
  }

  // The SET clause.
  function Updated(job: Job, u: Update, now: int): Job {
    match u
    case MarkQueued =>
      job.(status := Queued, updatedAt := now)
    case MarkRunning(worker, token, lease) =>
      job.(status := Running, worker := Some(worker), token := Some(token), leaseExpiresAt := Some(lease),
           startedAt := if job.startedAt.Some? then job.startedAt else Some(now),
           finishedAt := None, lastError := None, attempts := job.attempts + 1, updatedAt := now)
    case MarkCompleted(_) =>
      Released(job).(status := Completed, finishedAt := Some(now), lastError := None, updatedAt := now)
    case MarkFailed(_, error) =>
      Released(job).(status := Failed, finishedAt := Some(now), lastError := Some(error), updatedAt := now)
    case RequeueRunning(_, error) =>
      Released(job).(status := Queued, finishedAt := None, lastError := Some(error), updatedAt := now)
    case MarkFailedWithoutExecution(_, error) =>
      Released(job).(status := Failed, finishedAt := Some(now), lastError := Some(error), updatedAt := now)
    case CancelPendingOrQueued =>
      Released(job).(status := Cancelled, finishedAt := Some(now), updatedAt := now)
    case RequestRunningCancellation =>
      job.(cancelRequestedAt := Some(now), updatedAt := now)
    case MarkCancelled(_) =>
      Released(job).(status := Cancelled, finishedAt := Some(now), updatedAt := now)
  }

  function MaxTotalAttempts(maxRetries: nat): nat {
    Min(maxRetries + 1, MAX_TOTAL_JOB_ATTEMPTS)
  }

  // Which columns are set in which status.
  predicate WellShaped(job: Job) {
    && (job.status == Running <==> job.token.Some?)
    && (job.status == Running <==> job.worker.Some?)
    && (job.status == Running <==> job.leaseExpiresAt.Some?)
    && (Terminal(job.status) <==> job.finishedAt.Some?)
    && (job.attempts > 0 <==> job.startedAt.Some?)
  }

  // How many executions a row in each status may have behind it.
  predicate AttemptsInBounds(job: Job) {
    var max := MaxTotalAttempts(job.maxRetries);
    && job.attempts <= max
    && (job.status == Pending ==> job.attempts == 0)
    && (job.status == Queued ==> job.attempts < max)
    && (job.status == Running ==> job.attempts > 0)
  }

  predicate RowOk(job: Job) {
    WellShaped(job) && AttemptsInBounds(job)
  }

  // The status changes that a row can still go through, counted from above.
  function ChangesLeft(job: Job): nat
    requires AttemptsInBounds(job)
  {
    var max := MaxTotalAttempts(job.maxRetries);
    match job.status
    case Pending => 2 * max + 1
    case Running => 2 * (max - job.attempts) + 1
    case Queued => 2 * (max - job.attempts)
    case _ => 0
  }

  /** No update, whoever runs it and on whatever well-shaped row, leaves a row half set. */
  lemma UpdatesKeepTheShape(job: Job, u: Update, now: int)
    requires WellShaped(job) && Matches(job, u)
    ensures WellShaped(Updated(job, u, now))
    ensures job.startedAt.Some? ==> Updated(job, u, now).startedAt == job.startedAt
    ensures job.cancelRequestedAt.Some? ==> Updated(job, u, now).cancelRequestedAt == job.cancelRequestedAt
  {
  }

  // The error that an update brings along.
  function ErrorOf(u: Update): Option<string> {
    match u
    case MarkFailed(_, error) => Some(error)
    case RequeueRunning(_, error) => Some(error)
    case MarkFailedWithoutExecution(_, error) => Some(error)
    case _ => None
  }

  /**
   What a row tells afterwards: whose and how old the job is stays; the end of a job
   is the time of the update that ended it; an error is the one of the last failure,
   until the next start or completion; only a start counts an attempt, and a running
   row names its worker, its token and its lease.
   */
  lemma UpdatesTellTheirCause(job: Job, u: Update, now: int)
    requires WellShaped(job) && Matches(job, u)
    ensures var row := Updated(job, u, now);
            && row.owner == job.owner && row.maxRetries == job.maxRetries && row.createdAt == job.createdAt
            && row.updatedAt == now
            && (Terminal(row.status) && !Terminal(job.status) ==> row.finishedAt == Some(now))
            && row.lastError == (if ErrorOf(u).Some? then ErrorOf(u)
                                 else if u.MarkRunning? || u.MarkCompleted? then None else job.lastError)
            && row.attempts == job.attempts + (if u.MarkRunning? then 1 else 0)
            && (u.MarkRunning? ==>
                  && row.worker == Some(u.worker) && row.token == Some(u.token)
                  && row.leaseExpiresAt == Some(u.leaseExpiresAt)
                  && row.startedAt == if job.startedAt.Some? then job.startedAt else Some(now))
            && (u.RequestRunningCancellation? <==> row.cancelRequestedAt != job.cancelRequestedAt)
  {
  }

  /**
   The domain's transition graph is exactly what the repository can do, with one
   exception: the update that fails a job without executing it.
   */
  lemma UpdatesFollowThePolicy(job: Job, u: Update, now: int)
    requires Matches(job, u)
    ensures var target := Updated(job, u, now).status;
            CanTransition(job.status, target) <==>
            !u.RequestRunningCancellation? && !(u.MarkFailedWithoutExecution? && job.status != Running)
  {
  }

  // A row of each status, in a running one with token 0.
  function Sample(st: Status): Job {
    var job := NewJob(0, 3, 0).(status := st, finishedAt := if Terminal(st) then Some(0) else None);
    if st == Running then
      job.(worker := Some("worker"), token := Some(0), leaseExpiresAt := Some(0), attempts := 1, startedAt := Some(0))
    else job
  }

  /** And the graph has no edge beyond what the repository does to some well-shaped row. */
  lemma EveryEdgeIsTaken(source: Status, target: Status) returns (job: Job, u: Update)
    requires CanTransition(source, target)
    ensures WellShaped(job) && AttemptsInBounds(job) && job.status == source
    ensures Matches(job, u) && Updated(job, u, 0).status == target && !u.MarkFailedWithoutExecution?
  {
    job := Sample(source);
    match target
    case Queued => u := if source == Pending then MarkQueued else RequeueRunning(0, "");
    case Running => u := MarkRunning("worker", 0, 0);
    case Completed => u := MarkCompleted(0);
    case Failed => u := MarkFailed(0, "");
    case Cancelled => u := if source == Running then MarkCancelled(0) else CancelPendingOrQueued;
    case Pending =>
  }

  /* ----- What a row may go through between two commits ----- */

  ghost predicate RowStep(before: Job, after: Job) {
    && after.owner == before.owner && after.maxRetries == before.maxRetries && after.createdAt == before.createdAt
    && RowOk(after)
    && (after.status != before.status ==> CanTransition(before.status, after.status))
    && after.attempts == before.attempts + (if after.status == Running && before.status != Running then 1 else 0)
    && (before.startedAt.Some? ==> after.startedAt == before.startedAt)
    && (before.cancelRequestedAt.Some? ==> after.cancelRequestedAt == before.cancelRequestedAt)
    && (before.status == Running && after.status == Cancelled ==> before.cancelRequestedAt.Some?)
    && (after.token.Some? && before.status == Running ==> after.token == before.token)
  }

  /** A status change always uses up at least one of the changes that are left; nothing gives one back. */
  lemma RowStepUsesUpChanges(before: Job, after: Job)
    requires AttemptsInBounds(before) && RowStep(before, after)
    ensures after.status != before.status ==> ChangesLeft(after) < ChangesLeft(before)
    ensures after.status == before.status ==> ChangesLeft(after) == ChangesLeft(before)
    ensures ChangesLeft(after) <= 2 * MaxTotalAttempts(after.maxRetries) + 1
  {
  }

  /**
   An update of a good row is such a step exactly when the attempts bound, the
   honesty of a cancellation and the policy graph are respected by whoever runs it.
   */
  lemma UpdateIsRowStep(job: Job, u: Update, now: int)
    requires RowOk(job) && Matches(job, u)
    ensures RowStep(job, Updated(job, u, now)) <==>
            && (u.RequeueRunning? ==> job.attempts < MaxTotalAttempts(job.maxRetries))
            && (u.MarkCancelled? ==> job.cancelRequestedAt.Some?)
            && (u.MarkFailedWithoutExecution? ==> u.current in {Running, Failed})
  {
  }
}
