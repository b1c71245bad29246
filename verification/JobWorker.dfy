/** The worker: claim a job for a message, execute it, settle it, acknowledge the message. */
module JobWorker {
  import opened Wrappers
  import opened JobState
  import opened JobRows
  import opened Outbox
  import opened Protocol
  import opened ProtocolRuns
  import opened ProtocolHonesty
  import opened Cluster

  const MAX_JOB_ERROR_LENGTH: nat := 1000
  const MISSING_HANDLER_ERROR := "No handler is registered"
  const CHECK_FAILED_ERROR := "The cancellation check failed"
  const SLEEP_CHUNK_SECONDS: real := 0.25
  const RETRY_BACKOFF_SECONDS_BY_ATTEMPT: map<nat, nat> := map[1 := 5, 2 := 15, 3 := 30]

  // What the registry finds for a job, and how its handler behaves.
  datatype Handler = Missing | Succeed | Raise(error: string) | Sleep(seconds: real)

  // How a handler run ends.
  datatype Outcome = Returned | CancelRaised | ErrorRaised(error: string)

  function TruncateError(error: string): (shown: string)
    ensures |error| <= 1000 ==> shown == error
    ensures |error| > 1000 ==> |shown| == 1000 && shown[..997] == error[..997] && shown[997..] == "..."
  {
    if |error| <= MAX_JOB_ERROR_LENGTH then error else error[..MAX_JOB_ERROR_LENGTH - 3] + "..."
  }

  function RetryBackoffSeconds(attempt: nat): nat
    requires attempt in RETRY_BACKOFF_SECONDS_BY_ATTEMPT
  {
    RETRY_BACKOFF_SECONDS_BY_ATTEMPT[attempt]
  }

  /* ----- What one message does when nobody interferes ----- */

  // How long a job waits after its first, its second and its third attempt.
  ghost function RetryWait(attempt: nat): nat {
    if attempt == 1 then 5 else if attempt == 2 then 15 else 30
  }

  // The status in which an undisturbed execution of a queued job leaves it.
  function SettledStatus(job: Job, handler: Handler): Status {
    match handler
    case Missing => Failed
    case Succeed => Completed
    case Raise(_) => if job.attempts + 1 <= job.maxRetries && job.attempts + 1 <= 3 then Queued else Failed
    case Sleep(seconds) => if seconds > 0.0 && job.cancelRequestedAt.Some? then Cancelled else Completed
  }

  // From `s` to `t`, at time `now`, a message for job `j` was handled to the end.
  ghost predicate HandledAlone(c: Config, s: State, t: State, j: nat, handler: Handler, now: int)
    requires j in s.jobs
  {
    var job := s.jobs[j];
    && t.jobs.Keys == s.jobs.Keys && (forall k | k in s.jobs && k != j :: t.jobs[k] == s.jobs[k])
    && (if job.status != Queued then t.jobs == s.jobs && t.events == s.events
        else if |RunningOf(s.jobs, job.owner)| >= c.maxRunningPerUser then
          t.jobs == s.jobs && WokenAt(s.events, t.events, j, now, 3)
        else ExecutedAlone(job, t.jobs[j], s.events, t.events, j, handler, now))
  }

  // The queued row `job` was executed once, and settled with the result of `handler`.
  ghost predicate ExecutedAlone(job: Job, row: Job, before: map<nat, Event>, after: map<nat, Event>, j: nat,
                                handler: Handler, now: int)
  {
    && row.attempts == job.attempts + 1 && row.token == None
    && row.status == SettledStatus(job, handler)
    && (if row.status != Queued then after == before
        else 1 <= row.attempts <= 3 && WokenAt(before, after, j, now, RetryWait(row.attempts)))
  }

  // The verdict on an execution that ended with an error: as many retries as the job has, and three at most.
  function FailureVerdict(claim: Claim, error: string): Verdict {
    if claim.attempt <= claim.maxRetries && claim.attempt <= 3 then Retry(TruncateError(error))
    else Fail(TruncateError(error))
  }

  // The verdict on an execution whose handler has ended.
  function VerdictOn(claim: Claim, outcome: Outcome): Verdict {
    match outcome
    case Returned => Complete
    case CancelRaised => Cancel
    case ErrorRaised(error) => FailureVerdict(claim, error)
  }

  function VerdictOf(claim: Claim, handler: Handler, cancelled: bool): Verdict {
    match handler
    case Missing => Fail(TruncateError(MISSING_HANDLER_ERROR))
    case Succeed => Complete
    case Raise(error) => FailureVerdict(claim, error)
    case Sleep(seconds) => if seconds > 0.0 && cancelled then Cancel else Complete
  }

  // The verdicts that an execution can end with when others run too.
  predicate MayEndWith(claim: Claim, handler: Handler, v: Verdict) {
    match handler
    case Missing => v == Fail(TruncateError(MISSING_HANDLER_ERROR))
    case Succeed => v == Complete
    case Raise(error) => v == FailureVerdict(claim, error)
    case Sleep(seconds) =>
      v == Complete || (seconds > 0.0 && (v == Cancel || v == FailureVerdict(claim, CHECK_FAILED_ERROR)))
  }

  /* ----- A handler that sleeps, and asks whether to stop ----- */

  // A sleep that began in state `from` of the run.
  datatype Nap = Nap(from: nat, seconds: real)

  // The row is there, under the claim's token, and nobody has asked to stop.
  predicate MayGoOn(s: State, claim: Claim) {
    claim.job in s.jobs && s.jobs[claim.job].token == Some(claim.token) && s.jobs[claim.job].cancelRequestedAt == None
  }

  // From state `start` of the run on, the handler asked in the states `polls`, and slept after every answer but
  // a last one that told it to stop: a quarter of a second each time, or what was left.
  ghost predicate Slept(run: seq<State>, start: nat, claim: Claim, seconds: real, polls: seq<nat>, naps: seq<Nap>) {
    && |naps| <= |polls| <= |naps| + 1
    && (forall k | 0 <= k < |polls| :: start <= polls[k] < |run| && 0.25 * k as real < seconds)
    && (forall k | 0 <= k < |naps| ::
          && polls[k] < naps[k].from < |run| && (k + 1 < |polls| ==> naps[k].from <= polls[k + 1])
          && naps[k].seconds == (if seconds - 0.25 * k as real < 0.25 then seconds - 0.25 * k as real else 0.25)
          && MayGoOn(run[polls[k]], claim))
  }

  // How a sleep of these seconds ends: when it is over, because it was told to stop, or because it could not ask.
  ghost predicate SleptUntil(run: seq<State>, start: nat, claim: Claim, seconds: real, polls: seq<nat>,
                             naps: seq<Nap>, outcome: Outcome)
  {
    && Slept(run, start, claim, seconds, polls, naps)
    && match outcome
       case Returned => |naps| == |polls| && 0.25 * |naps| as real >= seconds
       case CancelRaised => |polls| == |naps| + 1 && !MayGoOn(run[polls[|naps|]], claim)
       case ErrorRaised(_) => |naps| == |polls| && 0.25 * |naps| as real < seconds
  }

  // What an execution was: its claim, how it ended, and what its handler did if it was one that sleeps.
  datatype Execution = Execution(claim: Claim, verdict: Verdict, polls: seq<nat>, naps: seq<Nap>)

  // From state `start` of the run on, `x` was an execution by `handler`.  A sleep that ended with `Complete` had
  // asked before every quarter of a second, and nobody had requested a cancellation before it last asked.
  ghost predicate ExecutedBy(run: seq<State>, start: nat, handler: Handler, x: Execution) {
    && MayEndWith(x.claim, handler, x.verdict)
    && (handler.Sleep? ==>
          && SleptUntil(run, start, x.claim, handler.seconds, x.polls, x.naps,
                        if x.verdict == Complete then Returned else if x.verdict == Cancel then CancelRaised
                        else ErrorRaised(CHECK_FAILED_ERROR))
          && (x.verdict == Complete && x.polls != [] ==>
                forall i | 0 <= i <= x.polls[|x.polls| - 1] && x.claim.job in run[i].jobs ::
                  run[i].jobs[x.claim.job].cancelRequestedAt == None))
  }

  lemma SleptLonger(run: seq<State>, longer: seq<State>, start: nat, claim: Claim, seconds: real, polls: seq<nat>,
                    naps: seq<Nap>)
    requires run <= longer && Slept(run, start, claim, seconds, polls, naps)
    ensures Slept(longer, start, claim, seconds, polls, naps)
  {
  }

  lemma PollsAreStates(run: seq<State>, start: nat, claim: Claim, seconds: real, polls: seq<nat>, naps: seq<Nap>)
    requires Slept(run, start, claim, seconds, polls, naps) && polls != []
    ensures start < |run|
  {
    assert start <= polls[0] < |run|;
  }

  lemma SameRowSameAnswer(s: State, t: State, claim: Claim)
    ensures s.jobs == t.jobs ==> MayGoOn(s, claim) == MayGoOn(t, claim)
  {
  }

  lemma NothingSlept(run: seq<State>, claim: Claim, seconds: real)
    requires |run| > 0
    ensures Slept(run, |run| - 1, claim, seconds, [], [])
  {
  }

  // After as many sleeps as questions, asks again in the present state.
  lemma AsksAgain(run: seq<State>, start: nat, claim: Claim, seconds: real, polls: seq<nat>, naps: seq<Nap>)
    requires Slept(run, start, claim, seconds, polls, naps) && |naps| == |polls| && start < |run|
    requires 0.25 * |naps| as real < seconds && (naps != [] ==> naps[|naps| - 1].from <= |run| - 1)
    ensures Slept(run, start, claim, seconds, polls + [|run| - 1], naps)
  {
  }

  lemma SleepsOn(run: seq<State>, start: nat, claim: Claim, seconds: real, polls: seq<nat>, naps: seq<Nap>, nap: Nap)
    requires Slept(run, start, claim, seconds, polls, naps) && |polls| == |naps| + 1
    requires polls[|naps|] < nap.from < |run| && MayGoOn(run[polls[|naps|]], claim)
    requires var left := seconds - 0.25 * |naps| as real; nap.seconds == if left < 0.25 then left else 0.25
    ensures Slept(run, start, claim, seconds, polls, naps + [nap])
  {
  }

  lemma ExecutedByLonger(run: seq<State>, longer: seq<State>, first: nat, start: nat, handler: Handler, x: Execution)
    requires run <= longer && first <= start && ExecutedBy(run, start, handler, x)
    ensures ExecutedBy(longer, first, handler, x)
  {
  }

  // A request that was there before an answer would have been in it.
  lemma NobodyHadAsked(c: Config, run: seq<State>, p: nat, claim: Claim)
    requires IsRun(c, run) && p < |run| && MayGoOn(run[p], claim)
    ensures forall i | 0 <= i <= p && claim.job in run[i].jobs :: run[i].jobs[claim.job].cancelRequestedAt == None
  {
    forall i | 0 <= i <= p && claim.job in run[i].jobs ensures run[i].jobs[claim.job].cancelRequestedAt == None {
      if run[i].jobs[claim.job].cancelRequestedAt.Some? {
        RequestsAreWriteOnce(c, run, i, p, claim.job);
      }
    }
  }

  // The job rows after the verdict's update, which a stale token does not match.
  function SettledRows(jobs: map<nat, Job>, claim: Claim, v: Verdict, now: int): map<nat, Job> {
    if claim.job in jobs && Matches(jobs[claim.job], VerdictUpdate(claim, v))
    then jobs[claim.job := Updated(jobs[claim.job], VerdictUpdate(claim, v), now)]
    else jobs
  }

  lemma StaleRowsStay(jobs: map<nat, Job>, claim: Claim, v: Verdict, now: int)
    ensures !(claim.job in jobs && Matches(jobs[claim.job], VerdictUpdate(claim, v))) ==>
              SettledRows(jobs, claim, v, now) == jobs
  {
  }

  // The verdict's effect on the outbox.
  ghost predicate SettledEvents(jobs: map<nat, Job>, before: map<nat, Event>, after: map<nat, Event>, claim: Claim,
                                v: Verdict, now: int)
  {
    if v.Retry? && claim.job in jobs && Matches(jobs[claim.job], VerdictUpdate(claim, v))
    then 1 <= claim.attempt <= 3 && WokenAt(before, after, claim.job, now, RetryWait(claim.attempt))
    else after == before
  }

  // From `before` to `after`, only row `j` changed: it now runs under `claim`.
  ghost predicate StartedFrom(before: map<nat, Job>, after: map<nat, Job>, j: nat, claim: Claim)
    requires j in before
  {
    && claim.job == j && claim.attempt == before[j].attempts + 1 && claim.maxRetries == before[j].maxRetries
    && j in after && after == before[j := after[j]]
    && after[j].status == Running && after[j].token == Some(claim.token)
    && after[j].attempts == claim.attempt && after[j].cancelRequestedAt == before[j].cancelRequestedAt
  }

  // What an undisturbed claim does to the tables.
  ghost predicate ClaimedAlone(c: Config, s: State, t: State, j: nat, claim: Option<Claim>, now: int) {
    && j in s.jobs
    && var room := |RunningOf(s.jobs, s.jobs[j].owner)| < c.maxRunningPerUser;
       if s.jobs[j].status != Queued then claim == None && t.jobs == s.jobs && t.events == s.events
       else if room then claim.Some? && t.events == s.events && StartedFrom(s.jobs, t.jobs, j, claim.value)
       else claim == None && t.jobs == s.jobs && WokenAt(s.events, t.events, j, now, 3)
  }

  // What an undisturbed execution of `claim` does to the tables.
  ghost predicate ExecutedFrom(s: State, t: State, claim: Claim, handler: Handler, now: int) {
    var v := VerdictOf(claim, handler, !MayGoOn(s, claim));
    && t.jobs == SettledRows(s.jobs, claim, v, now)
    && SettledEvents(s.jobs, s.events, t.events, claim, v, now)
  }

  // Handling is about the tables only.
  lemma SameHandling(c: Config, s: State, s': State, t: State, t': State, j: nat, handler: Handler, now: int)
    requires s.jobs == s'.jobs && s.events == s'.events && t.jobs == t'.jobs && t.events == t'.events
    requires j in s'.jobs && HandledAlone(c, s', t, j, handler, now)
    ensures HandledAlone(c, s, t', j, handler, now)
  {
  }

  // A commit of the verdict's update settles the rows.
  lemma SettledByMerge(jobs: map<nat, Job>, staged: map<nat, Job>, claim: Claim, v: Verdict, now: int)
    ensures claim.job in jobs && Matches(jobs[claim.job], VerdictUpdate(claim, v))
            && staged == map[claim.job := Updated(jobs[claim.job], VerdictUpdate(claim, v), now)]
            ==> jobs + staged == SettledRows(jobs, claim, v, now)
  {
  }

  /** Claiming, then executing what was claimed, handles the message. */
  lemma ClaimThenExecute(c: Config, s: State, mid: State, t: State, j: nat, claim: Claim, handler: Handler, now: int)
    requires j in s.jobs && AttemptsInBounds(s.jobs[j])
    requires ClaimedAlone(c, s, mid, j, Some(claim), now) && ExecutedFrom(mid, t, claim, handler, now)
    ensures HandledAlone(c, s, t, j, handler, now)
  {
    assert MayGoOn(mid, claim) != s.jobs[j].cancelRequestedAt.Some?;
  }

  lemma NothingToExecute(c: Config, s: State, t: State, j: nat, handler: Handler, now: int)
    requires ClaimedAlone(c, s, t, j, None, now)
    ensures HandledAlone(c, s, t, j, handler, now)
  {
  }

  // What the verdict of a retry asks of the outbox.
  lemma RetrySettlesEvents(jobs: map<nat, Job>, before: map<nat, Event>, claim: Claim, v: Verdict, now: int)
    requires v.Retry? && claim.attempt in RETRY_BACKOFF_SECONDS_BY_ATTEMPT
    ensures claim.job in jobs && Matches(jobs[claim.job], VerdictUpdate(claim, v)) ==>
              forall after ::
                WokenAt(before, after, claim.job, now, RetryBackoffSeconds(claim.attempt)) ==>
                  SettledEvents(jobs, before, after, claim, v, now)
    ensures !(claim.job in jobs && Matches(jobs[claim.job], VerdictUpdate(claim, v))) ==>
              SettledEvents(jobs, before, before, claim, v, now)
  {
    assert RetryBackoffSeconds(claim.attempt) == RetryWait(claim.attempt);
  }

  // The row that a claim starts.
  lemma StartedRowRuns(job: Job, claim: Claim, workerId: string, lease: int, now: int)
    requires claim.attempt == job.attempts + 1
    ensures var row := Updated(job, Update.MarkRunning(workerId, claim.token, lease), now);
            && row.status == Running && row.token == Some(claim.token) && row.worker == Some(workerId)
            && row.attempts == claim.attempt && row.leaseExpiresAt == Some(lease)
            && row.cancelRequestedAt == job.cancelRequestedAt
  {
  }

  // Session `me` is to see to an event for job `j`, and the job has one.
  ghost predicate FindsEvent(s: State, me: nat, j: nat) {
    && me in s.sessions && (s.sessions[me].phase.ClaimCounted? || s.sessions[me].phase.SettleRequeued?)
    && HasUnpublished(s.events, j)
  }

  ghost predicate HadEvent(run: seq<State>, start: nat, me: nat, j: nat) {
    exists p | start <= p < |run| :: FindsEvent(run[p], me, j)
  }

  ghost predicate HasNew(events: map<nat, Event>, j: nat, now: int, wait: nat) {
    exists e | e in events :: NewFor(events[e], j, now, wait)
  }

  // The session found an event of the job, or the job has got one that is due `wait` seconds after time `now`.
  ghost predicate SeenTo(run: seq<State>, start: nat, me: nat, j: nat, now: int, wait: nat) {
    |run| > 0 && (HadEvent(run, start, me, j) || HasNew(run[|run| - 1].events, j, now, wait))
  }

  lemma SeenToBefore(run: seq<State>, first: nat, start: nat, me: nat, j: nat, now: int, wait: nat)
    requires first <= start && SeenTo(run, start, me, j, now, wait)
    ensures SeenTo(run, first, me, j, now, wait)
  {
    if HadEvent(run, start, me, j) {
      var p :| start <= p < |run| && FindsEvent(run[p], me, j);
    }
  }

  class JobWorker {
    const db: Cluster
    const workerId: string

    constructor (db: Cluster, workerId: string)
      ensures this.db == db && this.workerId == workerId
    {
      this.db, this.workerId := db, workerId;
    }

    ghost predicate MessageFor(me: nat, m: nat, j: nat)
      reads db
    {
      m in db.queue && db.queue[m].job == j && db.queue[m].holder == Some(me)
    }

    // The worker's session is in phase `p`, and has locked the job of its message.
    ghost predicate JobLocked(me: nat, m: nat, j: nat, p: Phase)
      reads db
    {
      At(db.Snapshot(), me, p) && MessageFor(me, m, j) && db.sessions[me].rows == {j} && j in db.jobs
    }

    // The worker's session executes `claim`.
    ghost predicate Executes(me: nat, m: nat, claim: Claim, saw: bool)
      reads db
    {
      At(db.Snapshot(), me, Executing(m, claim, saw)) && MessageFor(me, m, claim.job)
    }

    /* ----- Claiming ----- */

    // Where the work on message `m` leaves the session: acknowledging it, unless the session was lost.
    ghost predicate Settled(me: nat, m: nat, j: nat, alive: bool)
      reads db
    {
      if alive then At(db.Snapshot(), me, Handled(m)) && MessageFor(me, m, j) else me !in db.sessions
    }

    method LockOwner(me: nat, m: nat, j: nat) returns (alive: bool)
      requires db.Valid() && At(db.Snapshot(), me, Received(m)) && MessageFor(me, m, j)
      modifies db
      ensures db.Valid() && old(db.run) <= db.run
      ensures if alive then At(db.Snapshot(), me, ClaimOwner(m)) && MessageFor(me, m, j) else me !in db.sessions
      ensures old(db.Alone(me)) ==> alive && db.Alone(me) && db.SameTables(old(db.Snapshot()))
    {
      hide IsRun, Next, Enabled, Apply;
      alive := db.LockOwner(me, m);
      if alive {
        db.Yield(me);
      }
    }

    // Locks the owner, then the job, in this order.
    method LockCandidate(me: nat, m: nat, j: nat) returns (alive: bool)
      requires db.Valid() && At(db.Snapshot(), me, Received(m)) && MessageFor(me, m, j)
      modifies db
      ensures db.Valid() && old(db.run) <= db.run
      ensures if alive then JobLocked(me, m, j, ClaimJob(m)) else me !in db.sessions
      ensures old(db.Alone(me)) ==> alive && db.Alone(me) && db.SameTables(old(db.Snapshot()))
    {
      hide IsRun, Next, Enabled, Apply, At, MessageFor, JobLocked;
      alive := LockOwner(me, m, j);
      if alive {
        alive := LockJob(me, m, j);
      }
    }

    method LockJob(me: nat, m: nat, j: nat) returns (alive: bool)
      requires db.Valid() && At(db.Snapshot(), me, ClaimOwner(m)) && MessageFor(me, m, j)
      modifies db
      ensures db.Valid() && old(db.run) <= db.run
      ensures if alive then JobLocked(me, m, j, ClaimJob(m)) else me !in db.sessions
      ensures old(db.Alone(me)) ==> alive && db.Alone(me) && db.SameTables(old(db.Snapshot()))
    {
      hide IsRun, Next, Enabled, Apply;
      alive := db.LockCandidate(me, m);
      if alive {
        db.Yield(me);
      }
    }

    // Commits what the session has staged, after which only the acknowledgement is left.
    method CommitHandled(me: nat, m: nat, j: nat) returns (alive: bool)
      requires db.Valid() && me in db.sessions && MessageFor(me, m, j)
      requires Committing(db.sessions[me].phase) && AfterCommit(db.sessions[me].phase) == Some(Handled(m))
      modifies db
      ensures db.Valid() && old(db.run) <= db.run && Settled(me, m, j, alive)
      ensures alive ==>
                forall k | k in old(db.sessions[me].jobs) ::
                  k in db.jobs && me in old(db.sessions) && db.jobs[k] == old(db.sessions[me].jobs)[k]
      ensures alive ==>
                forall e | e in old(db.sessions[me].events) ::
                  e in db.events && me in old(db.sessions) && db.events[e] == old(db.sessions[me].events)[e]
      ensures alive && old(Waiting(me, j)) ==> HasUnpublished(db.events, j)
      ensures old(db.Alone(me)) ==>
                && alive && db.Alone(me) && db.queue == old(db.queue)
                && db.jobs == old(db.jobs + db.sessions[me].jobs)
                && db.events == old(db.events + db.sessions[me].events)
    {
      hide IsRun, Next, Enabled, Apply;
      db.Yield(me);
      if Waiting(me, j) {
        db.WaitingJobsHaveAnEvent(me, j);
        db.PromisesAreKept(me, j);
      }
      alive := db.Commit(me);
    }

    // The session is about to commit that job `j` waits: for capacity, or for its retry.
    predicate Waiting(me: nat, j: nat)
      reads db
    {
      && me in db.sessions
      && var p := db.sessions[me].phase;
         || (p.SettleReady? && p.verdict.Retry? && p.claim.job == j)
         || (p.ClaimReady? && p.granted == None && p.m in db.queue && db.queue[p.m].job == j)
    }

    // The owner is at its cap: make sure that the job has an event for later.
    method DeferForCapacity(me: nat, m: nat, j: nat, running: nat, now: int) returns (alive: bool)
      requires db.Valid() && JobLocked(me, m, j, ClaimCounted(m, running)) && running >= db.config.maxRunningPerUser
      modifies db
      ensures db.Valid() && old(db.run) <= db.run && Settled(me, m, j, alive)
      ensures alive ==> HasUnpublished(db.events, j) && SeenTo(db.run, |old(db.run)| - 1, me, j, now, 3)
      ensures old(db.Alone(me)) ==>
                && alive && db.Alone(me) && db.jobs == old(db.jobs) && db.queue == old(db.queue)
                && WokenAt(old(db.events), db.events, j, now, 3)
    {
      hide IsRun, Next, Enabled, Apply, SeenTo, WokenAt, EventStaged, HasUnpublished;
      db.DeferDispatch(me, m, running, now);
      StagedEventWakes(db.events, db.sessions[me], j, now, 3);
      ghost var staged := db.sessions[me];
      alive := CommitHandled(me, m, j);
      if alive {
        StagedIsSeenTo(old(db.run), |old(db.run)| - 1, staged, me, j, now, 3);
      }
    }

    // After its commit, the session has seen to the event that it found or staged in the last state of run `before`.
    lemma StagedIsSeenTo(before: seq<State>, start: nat, x: Session, me: nat, j: nat, now: int, wait: nat)
      requires db.Valid() && start < |before| && before <= db.run
      requires var s := before[|before| - 1];
               && me in s.sessions && (s.sessions[me].phase.ClaimCounted? || s.sessions[me].phase.SettleRequeued?)
               && EventStaged(s.events, x, j, now, wait)
      requires forall e | e in x.events :: e in db.events && db.events[e] == x.events[e]
      ensures SeenTo(db.run, start, me, j, now, wait)
    {
      var p := |before| - 1;
      if HasUnpublished(before[p].events, j) {
        assert FindsEvent(db.run[p], me, j);
      } else {
        var e :| e in x.events && NewFor(x.events[e], j, now, wait);
        assert e in db.run[|db.run| - 1].events && HasNew(db.events, j, now, wait);
      }
    }

    // The owner has room: run the job.
    method RunJob(me: nat, m: nat, j: nat, running: nat, now: int) returns (alive: bool, claim: Claim)
      requires db.Valid() && JobLocked(me, m, j, ClaimCounted(m, running)) && running < db.config.maxRunningPerUser
      modifies db
      ensures db.Valid() && old(db.run) <= db.run
      ensures if alive then Executes(me, m, claim, false) && claim.job == j else me !in db.sessions
      ensures alive ==> RunsUnder(claim, now)
      ensures old(db.Alone(me)) ==>
                && alive && db.Alone(me) && db.events == old(db.events) && db.queue == old(db.queue)
                && j in old(db.jobs)
                && StartedFrom(old(db.jobs), db.jobs, j, claim)
    {
      hide IsRun, Next, Enabled, Apply, Updated, TokenUnused;
      claim := db.MarkRunning(me, m, running, workerId, now);
      ghost var row := db.sessions[me].jobs[j];
      StartedRowRuns(db.jobs[j], claim, workerId, now + db.config.leaseSeconds, now);
      MergeOne(db.jobs, j, row);
      alive := CommitStart(me, m, claim);
    }

    method CommitStart(me: nat, m: nat, claim: Claim) returns (alive: bool)
      requires db.Valid() && At(db.Snapshot(), me, ClaimReady(m, Some(claim))) && MessageFor(me, m, claim.job)
      requires claim.job in db.sessions[me].jobs && db.sessions[me].events == map[]
      modifies db
      ensures db.Valid() && old(db.run) <= db.run && me in old(db.sessions)
      ensures if alive then Executes(me, m, claim, false) else me !in db.sessions
      ensures alive ==> claim.job in db.jobs && db.jobs[claim.job] == old(db.sessions[me].jobs[claim.job])
      ensures old(db.Alone(me)) ==>
                && alive && db.Alone(me) && db.events == old(db.events) && db.queue == old(db.queue)
                && db.jobs == old(db.jobs + db.sessions[me].jobs)
    {
      hide IsRun, Next, Enabled, Apply;
      db.Yield(me);
      alive := db.Commit(me);
      assert old(db.events) + map[] == old(db.events);
    }

    // The committed row of the claim: running for this worker, with the claim's token and a lease from `now` on.
    ghost predicate RunsUnder(claim: Claim, now: int)
      reads db
    {
      && claim.job in db.jobs
      && var row := db.jobs[claim.job];
         && row.status == Running && row.token == Some(claim.token) && row.worker == Some(workerId)
         && row.attempts == claim.attempt && row.leaseExpiresAt == Some(now + db.config.leaseSeconds)
    }

    // Counts the running jobs of the owner, whose row stays locked.
    method CountRunning(me: nat, m: nat, j: nat) returns (running: nat)
      requires db.Valid() && JobLocked(me, m, j, ClaimJob(m)) && db.jobs[j].status == Queued
      modifies db
      ensures db.Valid() && old(db.run) <= db.run && JobLocked(me, m, j, ClaimCounted(m, running))
      ensures old(db.Alone(me)) ==>
                && db.Alone(me) && db.SameTables(old(db.Snapshot()))
                && j in old(db.jobs) && running == |RunningOf(old(db.jobs), old(db.jobs)[j].owner)|
    {
      hide IsRun, Next, Enabled, Apply, RunningOf;
      // The branch that fails a queued job without executing it is never taken.
      db.QueuedJobsHaveAnAttemptLeft(j);
      running := db.CountRunningForOwner(me, m);
      db.Yield(me);
    }

    // Decides what to do with a queued job whose row and owner are locked.
    method ClaimQueued(me: nat, m: nat, j: nat, now: int) returns (alive: bool, claim: Option<Claim>)
      requires db.Valid() && JobLocked(me, m, j, ClaimJob(m)) && db.jobs[j].status == Queued
      modifies db
      ensures db.Valid() && old(db.run) <= db.run
      ensures if alive && claim.Some? then Executes(me, m, claim.value, false) && claim.value.job == j
              else Settled(me, m, j, alive)
      ensures alive ==>
                if claim.Some? then RunsUnder(claim.value, now)
                else HasUnpublished(db.events, j) && SeenTo(db.run, |old(db.run)| - 1, me, j, now, 3)
      ensures old(db.Alone(me)) ==> alive && db.Alone(me) && db.queue == old(db.queue) && j in old(db.jobs)
      ensures old(db.Alone(me)) && claim.Some? ==>
                && db.events == old(db.events) && StartedFrom(old(db.jobs), db.jobs, j, claim.value)
                && |RunningOf(old(db.jobs), old(db.jobs)[j].owner)| < db.config.maxRunningPerUser
      ensures old(db.Alone(me)) && claim == None ==>
                && |RunningOf(old(db.jobs), old(db.jobs)[j].owner)| >= db.config.maxRunningPerUser
                && db.jobs == old(db.jobs) && WokenAt(old(db.events), db.events, j, now, 3)
    {
      hide IsRun, Next, Enabled, Apply, At, WokenAt, StartedFrom, RunningOf, HasUnpublished, SeenTo;
      claim := None;
      var running := CountRunning(me, m, j);
      if running >= db.config.maxRunningPerUser {
        ghost var start := |db.run| - 1;
        alive := DeferForCapacity(me, m, j, running, now);
        if alive {
          SeenToBefore(db.run, |old(db.run)| - 1, start, me, j, now, 3);
        }
      } else {
        var granted;
        alive, granted := RunJob(me, m, j, running, now);
        claim := Some(granted);
      }
    }

    method ClaimExecution(me: nat, m: nat, j: nat) returns (alive: bool, claim: Option<Claim>)
      requires db.Valid() && At(db.Snapshot(), me, Received(m)) && MessageFor(me, m, j)
      modifies db
      ensures db.Valid() && old(db.run) <= db.run
      ensures if alive && claim.Some? then Executes(me, m, claim.value, false) && claim.value.job == j
              else Settled(me, m, j, alive)
      ensures alive ==>
                if claim.Some? then RunsUnder(claim.value, old(db.clock))
                else
                  && j in db.jobs
                  && (db.jobs[j].status == Queued ==>
                        && HasUnpublished(db.events, j)
                        && SeenTo(db.run, |old(db.run)| - 1, me, j, old(db.clock), 3))
      ensures old(db.Alone(me)) ==>
                && alive && db.Alone(me) && db.queue == old(db.queue)
                && ClaimedAlone(db.config, old(db.Snapshot()), db.Snapshot(), j, claim, old(db.clock))
    {
      hide IsRun, Next, Enabled, Apply, WokenAt, StartedFrom, RunningOf, HasUnpublished, SeenTo;
      claim := None;
      var now := db.clock;
      alive := LockCandidate(me, m, j);
      if !alive {
        return;
      }
      if db.jobs[j].status != Queued {
        db.DropMessage(me, m);
      } else {
        ghost var start := |db.run| - 1;
        alive, claim := ClaimQueued(me, m, j, now);
        if alive && claim == None {
          SeenToBefore(db.run, |old(db.run)| - 1, start, me, j, now, 3);
          db.MessageIsHeld(me, m);
        }
      }
    }

    /* ----- Executing ----- */

    // The handler's log of the questions it has asked and the sleeps it has slept, one for each.
    ghost predicate Logged(start: nat, claim: Claim, seconds: real, polls: seq<nat>, naps: seq<Nap>)
      reads db
    {
      && Slept(db.run, start, claim, seconds, polls, naps) && |naps| == |polls| && start < |db.run|
      && (naps != [] ==> naps[|naps| - 1].from < |db.run|)
    }

    // The handler asks whether to stop.
    method Ask(me: nat, m: nat, claim: Claim, ghost start: nat, ghost seconds: real, ghost polls: seq<nat>,
               ghost naps: seq<Nap>) returns (answer: Option<bool>)
      requires db.Valid() && Executes(me, m, claim, false) && Logged(start, claim, seconds, polls, naps)
      requires 0.25 * |naps| as real < seconds
      modifies db
      ensures db.Valid() && old(db.run) <= db.run && Executes(me, m, claim, answer == Some(true))
      ensures old(db.clock) <= db.clock
      ensures if answer == None then Slept(db.run, start, claim, seconds, polls, naps)
              else
                && Slept(db.run, start, claim, seconds, polls + [|old(db.run)| - 1], naps)
                && |db.run| > |old(db.run)| && (answer.value <==> !MayGoOn(db.run[|old(db.run)| - 1], claim))
      ensures old(db.Alone(me)) ==>
                && db.Alone(me) && db.SameTables(old(db.Snapshot()))
                && answer == Some(!MayGoOn(old(db.Snapshot()), claim))
    {
      hide IsRun, Next, Enabled, Apply, Slept;
      answer := db.PollCancel(me, m, claim, false);
      SleptLonger(old(db.run), db.run, start, claim, seconds, polls, naps);
      if answer.Some? {
        AsksAgain(old(db.run), start, claim, seconds, polls, naps);
        SleptLonger(old(db.run), db.run, start, claim, seconds, polls + [|old(db.run)| - 1], naps);
      }
    }

    // The handler sleeps for this long, and others run.
    method SleepFor(me: nat, m: nat, claim: Claim, duration: real, ghost start: nat, ghost seconds: real,
                    ghost polls: seq<nat>, ghost naps: seq<Nap>) returns (ghost nap: Nap)
      requires db.Valid() && Executes(me, m, claim, false)
      requires Slept(db.run, start, claim, seconds, polls, naps) && |polls| == |naps| + 1
      requires polls[|naps|] < |db.run| - 1 && MayGoOn(db.run[polls[|naps|]], claim)
      requires var left := seconds - 0.25 * |naps| as real; duration == if left < 0.25 then left else 0.25
      modifies db
      ensures db.Valid() && old(db.run) <= db.run && Executes(me, m, claim, false) && old(db.clock) <= db.clock
      ensures Logged(start, claim, seconds, polls, naps + [nap])
      ensures old(db.Alone(me)) ==> db.Alone(me) && db.SameTables(old(db.Snapshot()))
    {
      hide IsRun, Next, Enabled, Apply, Slept;
      nap := Nap(|db.run| - 1, duration);
      SleepsOn(db.run, start, claim, seconds, polls, naps, nap);
      db.Yield(me);
      SleptLonger(old(db.run), db.run, start, claim, seconds, polls, naps + [nap]);
      PollsAreStates(db.run, start, claim, seconds, polls, naps + [nap]);
    }

    // The sleep handler: wait in chunks, and ask before each one whether to stop.
    method RunSleep(me: nat, m: nat, claim: Claim, seconds: real)
        returns (outcome: Outcome, saw: bool, ghost polls: seq<nat>, ghost naps: seq<Nap>)
      requires db.Valid() && Executes(me, m, claim, false)
      modifies db
      ensures db.Valid() && old(db.run) <= db.run && Executes(me, m, claim, saw)
      ensures SleptUntil(db.run, |old(db.run)| - 1, claim, seconds, polls, naps, outcome)
      ensures outcome == CancelRaised <==> saw
      ensures outcome.ErrorRaised? ==> outcome.error == CHECK_FAILED_ERROR
      ensures old(db.clock) <= db.clock
      ensures old(db.Alone(me)) ==>
                && db.Alone(me) && db.SameTables(old(db.Snapshot())) && !outcome.ErrorRaised?
                && (saw <==> seconds > 0.0 && !MayGoOn(old(db.Snapshot()), claim))
    {
      hide IsRun, Next, Enabled, Apply, Slept, MayGoOn;
      ghost var start := |db.run| - 1;
      saw, polls, naps := false, [], [];
      NothingSlept(db.run, claim, seconds);
      var remaining := seconds;
      while remaining > 0.0
        invariant db.Valid() && old(db.run) <= db.run && Executes(me, m, claim, false) && old(db.clock) <= db.clock
        invariant Logged(start, claim, seconds, polls, naps)
        invariant if remaining > 0.0 then remaining == seconds - 0.25 * |naps| as real
                  else 0.25 * |naps| as real >= seconds
        invariant old(db.Alone(me)) ==> db.Alone(me) && db.SameTables(old(db.Snapshot()))
        invariant old(db.Alone(me)) && naps != [] ==> MayGoOn(old(db.Snapshot()), claim)
        decreases if remaining > 0.0 then (remaining / SLEEP_CHUNK_SECONDS).Floor + 1 else 0
      {
        SameRowSameAnswer(old(db.Snapshot()), db.Snapshot(), claim);
        ghost var asked := |db.run| - 1;
        var answer := Ask(me, m, claim, start, seconds, polls, naps);
        if answer == None {
          return ErrorRaised(CHECK_FAILED_ERROR), false, polls, naps;
        }
        polls := polls + [asked];
        if answer.value {
          return CancelRaised, true, polls, naps;
        }
        var chunk := if remaining < SLEEP_CHUNK_SECONDS then remaining else SLEEP_CHUNK_SECONDS;
        ghost var nap := SleepFor(me, m, claim, chunk, start, seconds, polls, naps);
        naps := naps + [nap];
        remaining := remaining - chunk;
      }
      outcome := Returned;
    }

    method RunHandler(me: nat, m: nat, claim: Claim, handler: Handler)
        returns (outcome: Outcome, saw: bool, ghost polls: seq<nat>, ghost naps: seq<Nap>)
      requires db.Valid() && Executes(me, m, claim, false) && !handler.Missing?
      modifies db
      ensures db.Valid() && old(db.run) <= db.run && Executes(me, m, claim, saw)
      ensures outcome == CancelRaised <==> saw
      ensures old(db.clock) <= db.clock
      ensures match handler
              case Raise(error) => outcome == ErrorRaised(error)
              case Sleep(seconds) =>
                && SleptUntil(db.run, |old(db.run)| - 1, claim, seconds, polls, naps, outcome)
                && (outcome == Returned || saw || outcome == ErrorRaised(CHECK_FAILED_ERROR))
              case _ => outcome == Returned
      ensures old(db.Alone(me)) ==> db.Alone(me) && db.SameTables(old(db.Snapshot()))
      ensures old(db.Alone(me)) ==>
                match handler
                case Raise(error) => outcome == ErrorRaised(error)
                case Sleep(seconds) =>
                  outcome == if seconds > 0.0 && !MayGoOn(old(db.Snapshot()), claim) then CancelRaised else Returned
                case _ => outcome == Returned
    {
      polls, naps := [], [];
      match handler
      case Sleep(seconds) =>
        outcome, saw, polls, naps := RunSleep(me, m, claim, seconds);
      case Raise(error) =>
        outcome, saw := ErrorRaised(error), false;
      case Succeed =>
        outcome, saw := Returned, false;
    }

    /* ----- Settling ----- */

    method Conclude(me: nat, m: nat, claim: Claim, saw: bool, v: Verdict)
      requires db.Valid() && Executes(me, m, claim, saw) && (v.Cancel? ==> saw)
      requires v.Retry? ==> claim.attempt < MaxTotalAttempts(claim.maxRetries)
      modifies db
      ensures db.Valid() && old(db.run) <= db.run
      ensures At(db.Snapshot(), me, Settling(m, claim, v)) && MessageFor(me, m, claim.job)
      ensures old(db.Alone(me)) ==> db.Alone(me) && db.SameTables(old(db.Snapshot()))
    {
      db.Decide(me, m, claim, saw, v);
      db.Yield(me);
    }

    // Reports how the claim ended; the row is updated only if it still carries the claim's token.
    method Report(me: nat, m: nat, claim: Claim, saw: bool, v: Verdict, now: int) returns (alive: bool, matched: bool)
      requires db.Valid() && Executes(me, m, claim, saw) && (v.Cancel? ==> saw)
      requires v.Retry? ==> claim.attempt < MaxTotalAttempts(claim.maxRetries)
      modifies db
      ensures db.Valid() && old(db.run) <= db.run
      ensures !alive ==> me !in db.sessions
      ensures alive ==>
                && MessageFor(me, m, claim.job)
                && At(db.Snapshot(), me, if matched then db.AfterUpdate(m, claim, v) else Handled(m))
      ensures alive && matched ==>
                && db.sessions[me].rows == {claim.job} && db.sessions[me].events == map[]
                && claim.job in db.sessions[me].jobs && SettledAs(db.sessions[me].jobs[claim.job], claim, v, now)
      ensures alive && !matched ==> Retired(db.Snapshot(), claim.token)
      ensures old(db.Alone(me)) ==>
                && alive && db.Alone(me) && db.SameTables(old(db.Snapshot())) && claim.job in db.jobs
                && (matched <==> Matches(db.jobs[claim.job], VerdictUpdate(claim, v)))
                && (matched ==> db.sessions[me].jobs ==
                                map[claim.job := Updated(db.jobs[claim.job], VerdictUpdate(claim, v), now)])
    {
      hide IsRun, Next, Enabled, Apply, SettledAs, Retired;
      Conclude(me, m, claim, saw, v);
      alive, matched := db.UpdateClaimedRow(me, m, claim, v, now);
    }

    // How a settled claim ends, whatever the others did: the row is as the verdict says, with an event for a
    // retry; or the row had gone to somebody else, and the claim is fenced off for good.
    ghost predicate Concluded(claim: Claim, v: Verdict, matched: bool, now: int)
      reads db
    {
      if matched then
        && claim.job in db.jobs && SettledAs(db.jobs[claim.job], claim, v, now)
        && (v.Retry? ==> HasUnpublished(db.events, claim.job))
      else Retired(db.Snapshot(), claim.token)
    }

    // Reports an end of the execution, in one transaction.
    method Finalize(me: nat, m: nat, claim: Claim, saw: bool, v: Verdict) returns (alive: bool, matched: bool)
      requires db.Valid() && Executes(me, m, claim, saw) && !v.Retry? && (v.Cancel? ==> saw)
      modifies db
      ensures db.Valid() && old(db.run) <= db.run && Settled(me, m, claim.job, alive)
      ensures alive ==> Concluded(claim, v, matched, old(db.clock))
      ensures old(db.Alone(me)) ==>
                && alive && db.Alone(me) && db.queue == old(db.queue) && db.events == old(db.events)
                && db.jobs == SettledRows(old(db.jobs), claim, v, old(db.clock))
    {
      hide IsRun, Next, Enabled, Apply, Updated, Matches, VerdictUpdate, SettledAs, Retired;
      var now := db.clock;
      alive, matched := Report(me, m, claim, saw, v, now);
      if alive && matched {
        SettledByMerge(db.jobs, db.sessions[me].jobs, claim, v, now);
        alive := CommitVerdict(me, m, claim, v, now);
      }
    }

    method CommitVerdict(me: nat, m: nat, claim: Claim, v: Verdict, now: int) returns (alive: bool)
      requires db.Valid() && At(db.Snapshot(), me, SettleReady(m, claim, v)) && MessageFor(me, m, claim.job)
      requires !v.Retry?
      requires claim.job in db.sessions[me].jobs && SettledAs(db.sessions[me].jobs[claim.job], claim, v, now)
      requires db.sessions[me].events == map[]
      modifies db
      ensures db.Valid() && old(db.run) <= db.run && Settled(me, m, claim.job, alive)
      ensures alive ==> Concluded(claim, v, true, now)
      ensures old(db.Alone(me)) ==>
                && alive && db.Alone(me) && db.queue == old(db.queue) && db.events == old(db.events)
                && db.jobs == old(db.jobs + db.sessions[me].jobs)
    {
      hide IsRun, Next, Enabled, Apply, SettledAs, Waiting;
      alive := CommitHandled(me, m, claim.job);
      assert old(db.events) + map[] == old(db.events);
    }

    method MarkCompleted(me: nat, m: nat, claim: Claim) returns (alive: bool, matched: bool)
      requires db.Valid() && Executes(me, m, claim, false)
      modifies db
      ensures db.Valid() && old(db.run) <= db.run && Settled(me, m, claim.job, alive)
      ensures alive ==> Concluded(claim, Complete, matched, old(db.clock))
      ensures old(db.Alone(me)) ==>
                && alive && db.Alone(me) && db.queue == old(db.queue) && db.events == old(db.events)
                && db.jobs == SettledRows(old(db.jobs), claim, Complete, old(db.clock))
    {
      alive, matched := Finalize(me, m, claim, false, Complete);
    }

    method MarkCancelled(me: nat, m: nat, claim: Claim) returns (alive: bool, matched: bool)
      requires db.Valid() && Executes(me, m, claim, true)
      modifies db
      ensures db.Valid() && old(db.run) <= db.run && Settled(me, m, claim.job, alive)
      ensures alive ==> Concluded(claim, Cancel, matched, old(db.clock))
      ensures old(db.Alone(me)) ==>
                && alive && db.Alone(me) && db.queue == old(db.queue) && db.events == old(db.events)
                && db.jobs == SettledRows(old(db.jobs), claim, Cancel, old(db.clock))
    {
      alive, matched := Finalize(me, m, claim, true, Cancel);
    }

    method MarkFailed(me: nat, m: nat, claim: Claim, error: string) returns (alive: bool, matched: bool)
      requires db.Valid() && Executes(me, m, claim, false)
      modifies db
      ensures db.Valid() && old(db.run) <= db.run && Settled(me, m, claim.job, alive)
      ensures alive ==> Concluded(claim, Fail(TruncateError(error)), matched, old(db.clock))
      ensures old(db.Alone(me)) ==>
                && alive && db.Alone(me) && db.queue == old(db.queue) && db.events == old(db.events)
                && db.jobs == SettledRows(old(db.jobs), claim, Fail(TruncateError(error)), old(db.clock))
    {
      alive, matched := Finalize(me, m, claim, false, Fail(TruncateError(error)));
    }

    method ScheduleRetry(me: nat, m: nat, claim: Claim, error: string) returns (alive: bool, matched: bool)
      requires db.Valid() && Executes(me, m, claim, false)
      requires 1 <= claim.attempt < MaxTotalAttempts(claim.maxRetries)
      modifies db
      ensures db.Valid() && old(db.run) <= db.run && Settled(me, m, claim.job, alive)
      ensures alive ==> Concluded(claim, Retry(TruncateError(error)), matched, old(db.clock))
      ensures alive && matched ==>
                SeenTo(db.run, |old(db.run)| - 1, me, claim.job, old(db.clock), RetryWait(claim.attempt))
      ensures old(db.Alone(me)) ==>
                && alive && db.Alone(me) && db.queue == old(db.queue)
                && db.jobs == SettledRows(old(db.jobs), claim, Retry(TruncateError(error)), old(db.clock))
                && SettledEvents(old(db.jobs), old(db.events), db.events, claim, Retry(TruncateError(error)),
                                 old(db.clock))
    {
      hide IsRun, Next, Enabled, Apply, SettledAs, Retired, Updated, Matches, VerdictUpdate, SettledEvents, SettledRows;
      hide At, HasUnpublished, TruncateError, SeenTo;
      var now := db.clock;
      var v := Retry(TruncateError(error));
      alive, matched := Report(me, m, claim, false, v, now);
      RetrySettlesEvents(old(db.jobs), old(db.events), claim, v, now);
      StaleRowsStay(old(db.jobs), claim, v, now);
      if alive && matched {
        ghost var start := |db.run| - 1;
        alive := CommitSettledRetry(me, m, claim, v, now);
        if alive {
          SeenToBefore(db.run, |old(db.run)| - 1, start, me, claim.job, now, RetryWait(claim.attempt));
        }
      }
    }

    // The row is updated, and still to get its event.
    method CommitSettledRetry(me: nat, m: nat, claim: Claim, v: Verdict, now: int) returns (alive: bool)
      requires db.Valid() && At(db.Snapshot(), me, SettleRequeued(m, claim, v)) && MessageFor(me, m, claim.job)
      requires db.sessions[me].rows == {claim.job} && v.Retry? && claim.job in db.sessions[me].jobs
      requires SettledAs(db.sessions[me].jobs[claim.job], claim, v, now)
      requires claim.attempt in RETRY_BACKOFF_SECONDS_BY_ATTEMPT
      modifies db
      ensures db.Valid() && old(db.run) <= db.run && Settled(me, m, claim.job, alive)
      ensures alive ==> Concluded(claim, v, true, now)
      ensures alive ==> SeenTo(db.run, |old(db.run)| - 1, me, claim.job, now, RetryWait(claim.attempt))
      ensures old(db.Alone(me)) && claim.job in old(db.jobs)
              && Matches(old(db.jobs)[claim.job], VerdictUpdate(claim, v))
              && old(db.sessions[me].jobs)
                 == map[claim.job := Updated(old(db.jobs)[claim.job], VerdictUpdate(claim, v), now)] ==>
                && alive && db.Alone(me) && db.queue == old(db.queue)
                && db.jobs == SettledRows(old(db.jobs), claim, v, now)
                && SettledEvents(old(db.jobs), old(db.events), db.events, claim, v, now)
    {
      hide IsRun, Next, Enabled, Apply, SettledAs, Updated, Matches, VerdictUpdate, SettledEvents, SettledRows, WokenAt;
      hide SeenTo;
      db.Yield(me);
      ghost var start := |db.run| - 1;
      RetrySettlesEvents(db.jobs, db.events, claim, v, now);
      SettledByMerge(db.jobs, db.sessions[me].jobs, claim, v, now);
      alive := CommitRetry(me, m, claim, v, RetryBackoffSeconds(claim.attempt), now);
      assert RetryBackoffSeconds(claim.attempt) == RetryWait(claim.attempt);
      if alive {
        SeenToBefore(db.run, |old(db.run)| - 1, start, me, claim.job, now, RetryWait(claim.attempt));
      }
    }

    method CommitRetry(me: nat, m: nat, claim: Claim, v: Verdict, wait: nat, now: int) returns (alive: bool)
      requires db.Valid() && At(db.Snapshot(), me, SettleRequeued(m, claim, v)) && MessageFor(me, m, claim.job)
      requires v.Retry? && claim.job in db.sessions[me].jobs
      modifies db
      ensures db.Valid() && old(db.run) <= db.run && Settled(me, m, claim.job, alive)
      ensures alive ==>
                && me in old(db.sessions) && claim.job in old(db.sessions[me].jobs) && claim.job in db.jobs
                && db.jobs[claim.job] == old(db.sessions[me].jobs)[claim.job] && HasUnpublished(db.events, claim.job)
                && SeenTo(db.run, |old(db.run)| - 1, me, claim.job, now, wait)
      ensures old(db.Alone(me)) ==>
                && alive && db.Alone(me) && db.queue == old(db.queue)
                && db.jobs == old(db.jobs + db.sessions[me].jobs)
                && WokenAt(old(db.events), db.events, claim.job, now, wait)
    {
      hide IsRun, Next, Enabled, Apply, SeenTo, WokenAt, EventStaged, HasUnpublished;
      db.CreateRetryEvent(me, m, claim, v, wait, now);
      StagedEventWakes(db.events, db.sessions[me], claim.job, now, wait);
      ghost var staged := db.sessions[me];
      alive := CommitHandled(me, m, claim.job);
      if alive {
        StagedIsSeenTo(old(db.run), |old(db.run)| - 1, staged, me, claim.job, now, wait);
      }
    }

    // A failed attempt: the job is queued again after as many attempts as it has retries, and after three at most,
    // and it ends otherwise; the row shows the error.
    ghost predicate FailedOrRetried(me: nat, start: nat, claim: Claim, error: string, now: int)
      reads db
    {
      && claim.job in db.jobs
      && var row := db.jobs[claim.job];
         && row.lastError == Some(TruncateError(error)) && row.token == None
         && if claim.attempt <= claim.maxRetries && claim.attempt <= 3
            then
              && row.status == Queued && HasUnpublished(db.events, claim.job)
              && SeenTo(db.run, start, me, claim.job, now, RetryWait(claim.attempt))
            else row.status == Failed && row.finishedAt == Some(now)
    }

    method FinalizeFailure(me: nat, m: nat, claim: Claim, error: string) returns (alive: bool, matched: bool)
      requires db.Valid() && Executes(me, m, claim, false)
      modifies db
      ensures db.Valid() && old(db.run) <= db.run && Settled(me, m, claim.job, alive)
      ensures alive ==> Concluded(claim, FailureVerdict(claim, error), matched, old(db.clock))
      ensures alive && matched ==> FailedOrRetried(me, |old(db.run)| - 1, claim, error, old(db.clock))
      ensures old(db.Alone(me)) ==>
                && alive && db.Alone(me) && db.queue == old(db.queue)
                && db.jobs == SettledRows(old(db.jobs), claim, FailureVerdict(claim, error), old(db.clock))
                && SettledEvents(old(db.jobs), old(db.events), db.events, claim, FailureVerdict(claim, error),
                                 old(db.clock))
    {
      db.ClaimFacts(me);
      if claim.attempt >= MaxTotalAttempts(claim.maxRetries) {
        alive, matched := MarkFailed(me, m, claim, error);
      } else {
        alive, matched := ScheduleRetry(me, m, claim, error);
      }
    }

    // Settles the claim as its handler has ended.
    method SettleClaim(me: nat, m: nat, claim: Claim, outcome: Outcome, saw: bool) returns (alive: bool, matched: bool)
      requires db.Valid() && Executes(me, m, claim, saw) && (outcome == CancelRaised <==> saw)
      modifies db
      ensures db.Valid() && old(db.run) <= db.run && Settled(me, m, claim.job, alive)
      ensures alive ==> Concluded(claim, VerdictOn(claim, outcome), matched, old(db.clock))
      ensures old(db.Alone(me)) ==>
                && alive && db.Alone(me) && db.queue == old(db.queue)
                && db.jobs == SettledRows(old(db.jobs), claim, VerdictOn(claim, outcome), old(db.clock))
                && SettledEvents(old(db.jobs), old(db.events), db.events, claim, VerdictOn(claim, outcome),
                                 old(db.clock))
    {
      hide IsRun, Next, Enabled, Apply, Concluded, SettledRows, TruncateError;
      match outcome
      case CancelRaised =>
        alive, matched := MarkCancelled(me, m, claim);
      case ErrorRaised(error) =>
        alive, matched := FinalizeFailure(me, m, claim, error);
      case Returned =>
        alive, matched := MarkCompleted(me, m, claim);
    }

    // Runs the handler and settles the claim with its verdict, at the time `at` when the handler ended.
    method ExecuteClaim(me: nat, m: nat, claim: Claim, handler: Handler)
        returns (alive: bool, matched: bool, ghost x: Execution, ghost at: int)
      requires db.Valid() && Executes(me, m, claim, false)
      modifies db
      ensures db.Valid() && old(db.run) <= db.run && Settled(me, m, claim.job, alive)
      ensures x.claim == claim && ExecutedBy(db.run, |old(db.run)| - 1, handler, x)
      ensures old(db.clock) <= at && (alive ==> Concluded(claim, x.verdict, matched, at))
      ensures old(db.Alone(me)) ==>
                && alive && db.Alone(me) && db.queue == old(db.queue)
                && ExecutedFrom(old(db.Snapshot()), db.Snapshot(), claim, handler, old(db.clock))
    {
      if handler.Missing? {
        alive, matched, x := FailMissing(me, m, claim);
        at := old(db.clock);
      } else {
        alive, matched, x, at := RunAndSettle(me, m, claim, handler);
      }
    }

    method FailMissing(me: nat, m: nat, claim: Claim) returns (alive: bool, matched: bool, ghost x: Execution)
      requires db.Valid() && Executes(me, m, claim, false)
      modifies db
      ensures db.Valid() && old(db.run) <= db.run && Settled(me, m, claim.job, alive)
      ensures x.claim == claim && ExecutedBy(db.run, |old(db.run)| - 1, Missing, x)
      ensures alive ==> Concluded(claim, x.verdict, matched, old(db.clock))
      ensures old(db.Alone(me)) ==>
                && alive && db.Alone(me) && db.queue == old(db.queue)
                && ExecutedFrom(old(db.Snapshot()), db.Snapshot(), claim, Missing, old(db.clock))
    {
      hide IsRun, Next, Enabled, Apply, Concluded, SettledRows, TruncateError;
      x := Execution(claim, Fail(TruncateError(MISSING_HANDLER_ERROR)), [], []);
      alive, matched := MarkFailed(me, m, claim, MISSING_HANDLER_ERROR);
    }

    method RunAndSettle(me: nat, m: nat, claim: Claim, handler: Handler)
        returns (alive: bool, matched: bool, ghost x: Execution, ghost at: int)
      requires db.Valid() && Executes(me, m, claim, false) && !handler.Missing?
      modifies db
      ensures db.Valid() && old(db.run) <= db.run && Settled(me, m, claim.job, alive)
      ensures x.claim == claim && ExecutedBy(db.run, |old(db.run)| - 1, handler, x)
      ensures old(db.clock) <= at && (alive ==> Concluded(claim, x.verdict, matched, at))
      ensures old(db.Alone(me)) ==>
                && alive && db.Alone(me) && db.queue == old(db.queue)
                && ExecutedFrom(old(db.Snapshot()), db.Snapshot(), claim, handler, old(db.clock))
    {
      hide IsRun, Next, Enabled, Apply, Concluded, ExecutedBy, SleptUntil, SettledRows, SettledEvents, TruncateError;
      var outcome, saw;
      ghost var polls, naps;
      outcome, saw, polls, naps := RunHandler(me, m, claim, handler);
      at := db.clock;
      ghost var ran := db.run;
      x := Execution(claim, VerdictOn(claim, outcome), polls, naps);
      EndsAsTheHandlerDid(|old(db.run)| - 1, handler, x, outcome);
      alive, matched := SettleClaim(me, m, claim, outcome, saw);
      ExecutedByLonger(ran, db.run, |old(db.run)| - 1, |old(db.run)| - 1, handler, x);
    }

    lemma EndsAsTheHandlerDid(start: nat, handler: Handler, x: Execution, outcome: Outcome)
      requires db.Valid() && !handler.Missing? && x.verdict == VerdictOn(x.claim, outcome)
      requires match handler
               case Raise(error) => outcome == ErrorRaised(error)
               case Sleep(seconds) =>
                 && SleptUntil(db.run, start, x.claim, seconds, x.polls, x.naps, outcome)
                 && (outcome in {Returned, CancelRaised} || outcome == ErrorRaised(CHECK_FAILED_ERROR))
               case _ => outcome == Returned
      ensures ExecutedBy(db.run, start, handler, x)
    {
      if handler.Sleep? && outcome == Returned && x.polls != [] {
        var last := |x.polls| - 1;
        assert MayGoOn(db.run[x.polls[last]], x.claim);
        NobodyHadAsked(db.config, db.run, x.polls[last], x.claim);
      }
    }

    // Claims and executes; what is left is the acknowledgement.
    method ProcessMessage(me: nat, m: nat, j: nat, handler: Handler)
        returns (alive: bool, ghost execution: Option<Execution>)
      requires db.Valid() && At(db.Snapshot(), me, Received(m)) && MessageFor(me, m, j)
      modifies db
      ensures db.Valid() && old(db.run) <= db.run && Settled(me, m, j, alive)
      ensures execution.Some? ==> ExecutedBy(db.run, |old(db.run)| - 1, handler, execution.value)
      ensures old(db.Alone(me)) ==>
                && alive && db.Alone(me) && db.queue == old(db.queue) && j in old(db.jobs)
                && HandledAlone(db.config, old(db.Snapshot()), db.Snapshot(), j, handler, old(db.clock))
    {
      hide IsRun, Next, Enabled, Apply, HandledAlone, ExecutedFrom, ExecutedBy;
      hide At, StartedFrom, WokenAt, SeenTo, HasUnpublished, RunsUnder, Concluded;
      db.RowFacts();
      execution := None;
      var claim;
      alive, claim := ClaimExecution(me, m, j);
      if alive && claim.Some? {
        ghost var mid, start := db.Snapshot(), |db.run| - 1;
        var matched;
        ghost var x, at;
        alive, matched, x, at := ExecuteClaim(me, m, claim.value, handler);
        execution := Some(x);
        ExecutedByLonger(db.run, db.run, |old(db.run)| - 1, start, handler, x);
        if old(db.Alone(me)) {
          ClaimThenExecute(db.config, old(db.Snapshot()), mid, db.Snapshot(), j, claim.value, handler, db.clock);
        }
      } else if old(db.Alone(me)) {
        NothingToExecute(db.config, old(db.Snapshot()), db.Snapshot(), j, handler, db.clock);
      }
    }

    method ReceiveMessage(me: nat, m: nat) returns (j: nat)
      requires db.Valid() && me !in db.sessions && m in db.queue && db.queue[m].holder == None
      modifies db
      ensures db.Valid() && old(db.run) <= db.run
      ensures At(db.Snapshot(), me, Received(m)) && MessageFor(me, m, j)
      ensures m in old(db.queue) && j == old(db.queue)[m].job && j in db.jobs
      ensures old(db.calm && db.sessions == map[]) ==>
                && db.Alone(me) && db.jobs == old(db.jobs) && db.events == old(db.events)
                && db.queue - {m} == old(db.queue) - {m}
    {
      hide IsRun, Next, Enabled, Apply;
      db.Receive(me, m);
      db.MessageIsHeld(me, m);
      j := db.queue[m].job;
      db.Yield(me);
    }

    method FinishMessage(me: nat, m: nat)
      requires db.Valid() && At(db.Snapshot(), me, Handled(m))
      modifies db
      ensures db.Valid() && old(db.run) <= db.run && me !in db.sessions
      ensures old(db.Alone(me)) ==>
                && db.sessions == map[] && db.jobs == old(db.jobs) && db.events == old(db.events)
                && db.queue == old(db.queue) - {m}
    {
      hide IsRun, Next, Enabled, Apply;
      db.Yield(me);
      db.Acknowledge(me, m);
      assert old(db.Alone(me)) ==> db.sessions.Keys == {};
    }

    /**
     Handles one delivery of message `m` from receipt to acknowledgement.  Every
     statement is a protocol step, so all that holds over runs holds of it under any
     interference, and an execution is by its handler; without interference, its whole
     effect is `HandledAlone`.
     */
    method HandleMessage(me: nat, m: nat, handler: Handler) returns (ghost execution: Option<Execution>)
      requires db.Valid() && me !in db.sessions && m in db.queue && db.queue[m].holder == None
      modifies db
      ensures db.Valid() && old(db.run) <= db.run && me !in db.sessions
      ensures execution.Some? ==> ExecutedBy(db.run, |old(db.run)| - 1, handler, execution.value)
      ensures old(db.calm && db.sessions == map[]) ==>
                && var j := old(db.queue[m].job);
                   && db.sessions == map[] && db.queue == old(db.queue) - {m} && j in old(db.jobs)
                   && HandledAlone(db.config, old(db.Snapshot()), db.Snapshot(), j, handler, old(db.clock))
    {
      hide IsRun, Next, Enabled, Apply, HandledAlone, ExecutedBy;
      var j := ReceiveMessage(me, m);
      ghost var s, start := db.Snapshot(), |db.run| - 1;
      var alive;
      alive, execution := ProcessMessage(me, m, j, handler);
      ghost var t, ran := db.Snapshot(), db.run;
      if alive {
        FinishMessage(me, m);
        if old(db.calm && db.sessions == map[]) {
          SameHandling(db.config, old(db.Snapshot()), s, t, db.Snapshot(), j, handler, db.clock);
        }
      }
      if execution.Some? {
        ExecutedByLonger(ran, db.run, |old(db.run)| - 1, start, handler, execution.value);
      }
    }
  }
}
