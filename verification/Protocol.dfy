/**
 The dispatch protocol as a transition system.

 The shared state is the committed database, the broker queue and one session
 per open transaction.  A session holds row locks and stages its writes; nobody
 else sees a staged write before `Commit` applies all of them at once.  Every
 other step that touches the database goes through such a session, so that any
 interleaving of publishers, workers, recovery loops, API calls, crashes and
 redeliveries is a sequence of the steps below.

 Clock readings are arguments of the steps: processes may read different clocks,
 and a reading may be old by the time it is used.
 */
module Protocol {
  import opened Wrappers
  import opened JobState
  import opened JobRows
  import opened Outbox
  import opened Selection

  const CAPACITY_DEFER_SECONDS: nat := 3
  const RECOVERY_FINAL_FAILURE_MESSAGE := "Job failed after stale running recovery exhausted retries"
  const RECOVERY_REQUEUE_MESSAGE := "Job recovered from stale running state and queued for retry"

  datatype Config = Config(maxRunningPerUser: nat, leaseSeconds: nat)

  // A message in the broker; `holder` is the session that has it unacknowledged.
  datatype Message = Message(job: nat, event: nat, holder: Option<nat>)

  datatype Claim = Claim(job: nat, token: nat, attempt: nat, maxRetries: nat)

  // How the execution of a claim ended, as the worker reports it to the database.
  datatype Verdict = Complete | Cancel | Fail(error: string) | Retry(error: string)

  // What a session has done so far.
  datatype Phase =
    // Outbox publisher
    | PubEvent(e: nat)
    | PubJob(e: nat)
    | PubSend(e: nat)
    | PubSent(e: nat, sent: nat)
    | PubReady(e: nat, accepted: Option<nat>)
    | PubFailed(e: nat, retryAt: int)
    // Worker: claiming
    | Received(m: nat)
    | ClaimOwner(m: nat)
    | ClaimJob(m: nat)
    | ClaimCounted(m: nat, running: nat)
    | ClaimReady(m: nat, granted: Option<Claim>)
    // Worker: executing and settling
    | Executing(m: nat, claim: Claim, sawCancel: bool)
    | Settling(m: nat, claim: Claim, verdict: Verdict)
    | SettleRequeued(m: nat, claim: Claim, verdict: Verdict)
    | SettleReady(m: nat, claim: Claim, verdict: Verdict)
    | Handled(m: nat)
    // Worker: gave up with an exception, and the message stays unacknowledged until its channel closes
    | Stranded(m: nat)
    // Stale-lease recovery of the leases that were over at time `readAt`
    | Recovering(todo: set<nat>, requeued: Option<nat>, readAt: int)
    // API cancel
    | CancelJob(j: nat)
    | CancelReady(j: nat)

  datatype Session = Session(
    phase: Phase,
    owners: set<nat>,          // locked user rows
    rows: set<nat>,            // locked job rows
    evs: set<nat>,             // locked outbox rows
    jobs: map<nat, Job>,       // staged job rows
    events: map<nat, Event>)   // staged outbox rows

  // A session between transactions.
  function Idle(p: Phase): Session {
    Session(p, {}, {}, {}, map[], map[])
  }

  datatype State = State(
    nextId: nat,               // every identifier and token handed out is below it
    jobs: map<nat, Job>,
    events: map<nat, Event>,
    queue: map<nat, Message>,
    sessions: map<nat, Session>)

  const INITIAL: State := State(0, map[], map[], map[], map[])

  /* ----- The statements of each program, and the steps ----- */

  datatype PublishOp =
    | LockEvent(e: nat, at: int)
    | LockDispatchedJob
    | Discard(at: int)
    | Prepare(at: int)
    | Stamp(at: int)
    | RollBack(retryAt: int)

  datatype ClaimOp =
    | DropMissing
    | LockOwner
    | LockRow
    | DropNotQueued
    | FailExhausted(error: string, at: int)
    | CountRunning
    | Defer(at: int)
    | Run(worker: string, at: int)

  datatype ExecuteOp =
    | CheckCancel
    | Finish(verdict: Verdict)
    | SettleStale
    | SettleUpdate(at: int)
    | SettleEvent(availableAt: int, at: int)

  datatype RecoverOp =
    | LockExpired(ids: set<nat>, at: int)
    | RecoverOne(j: nat, at: int)
    | RecoverEvent(at: int)

  datatype CancelOp =
    | LockForCancel(j: nat)
    | WriteCancel(at: int)

  datatype Step =
    | Create(owner: nat, maxRetries: nat, at: int)
    | Deliver(a: nat, m: nat)
    | Ack(a: nat)
    | Send(a: nat)
    | RecordFailure(a: nat, error: string)
    | Commit(a: nat)
    | Raise(a: nat)
    | Crash(a: nat)
    | Publish(a: nat, publish: PublishOp)
    | ToClaim(a: nat, toClaim: ClaimOp)
    | Execute(a: nat, execute: ExecuteOp)
    | Recover(a: nat, recover: RecoverOp)
    | ApiCancel(a: nat, cancel: CancelOp)

  /* ----- Reading a phase ----- */

  // The message that a session has unacknowledged.
  function MessageOf(p: Phase): Option<nat> {
    match p
    case Received(m) => Some(m)
    case ClaimOwner(m) => Some(m)
    case ClaimJob(m) => Some(m)
    case ClaimCounted(m, _) => Some(m)
    case ClaimReady(m, _) => Some(m)
    case Executing(m, _, _) => Some(m)
    case Settling(m, _, _) => Some(m)
    case SettleRequeued(m, _, _) => Some(m)
    case SettleReady(m, _, _) => Some(m)
    case Handled(m) => Some(m)
    case Stranded(m) => Some(m)
    case _ => None
  }

  // The execution claim that a session has, or is about to commit.
  function ClaimOf(p: Phase): Option<Claim> {
    match p
    case ClaimReady(_, granted) => granted
    case Executing(_, claim, _) => Some(claim)
    case Settling(_, claim, _) => Some(claim)
    case SettleRequeued(_, claim, _) => Some(claim)
    case SettleReady(_, claim, _) => Some(claim)
    case _ => None
  }

  // The session has not yet decided what to do with its message, or has left it to a later delivery.
  predicate Undecided(p: Phase) {
    p.Received? || p.ClaimOwner? || p.ClaimJob? || p.ClaimCounted? || p.ClaimReady? || p.Stranded?
  }

  predicate Publishing(p: Phase) {
    p.PubEvent? || p.PubJob? || p.PubSend? || p.PubSent? || p.PubReady? || p.PubFailed?
  }

  // The session executes a committed claim.
  predicate Granted(p: Phase) {
    p.Executing? || p.Settling? || p.SettleRequeued? || p.SettleReady?
  }

  predicate Committing(p: Phase) {
    || p.PubReady? || p.ClaimReady? || p.SettleReady? || p.CancelReady?
    || (p.Recovering? && p.todo == {} && p.requeued == None)
  }

  // Where a session goes on after its commit; `None` when it is over.
  function AfterCommit(p: Phase): Option<Phase> {
    match p
    case ClaimReady(m, Some(claim)) => Some(Executing(m, claim, false))
    case ClaimReady(m, None) => Some(Handled(m))
    case SettleReady(m, _, _) => Some(Handled(m))
    case _ => None
  }

  /* ----- Locks, and what a statement reads ----- */

  predicate OwnerFree(s: State, a: nat, owner: nat) {
    forall b | b in s.sessions && b != a :: owner !in s.sessions[b].owners
  }

  predicate RowFree(s: State, a: nat, j: nat) {
    forall b | b in s.sessions && b != a :: j !in s.sessions[b].rows
  }

  predicate EventFree(s: State, a: nat, e: nat) {
    forall b | b in s.sessions && b != a :: e !in s.sessions[b].evs
  }

  function RunningOf(jobs: map<nat, Job>, owner: nat): set<nat> {
    set j | j in jobs && jobs[j].owner == owner && jobs[j].status == Running
  }

  // A message that may still start an execution: ready, with a worker that has not decided, or to be redelivered.
  predicate Live(s: State, m: nat) {
    && m in s.queue
    && var holder := s.queue[m].holder;
       holder.Some? ==> holder.value in s.sessions && Undecided(s.sessions[holder.value].phase)
  }

  predicate LiveFor(s: State, m: nat, j: nat) {
    m in s.queue && s.queue[m].job == j && Live(s, m)
  }

  predicate HasLive(s: State, j: nat) {
    exists m | m in s.queue :: LiveFor(s, m, j)
  }

  /* ----- Which update a session runs ----- */

  function VerdictUpdate(claim: Claim, v: Verdict): Update {
    match v
    case Complete => MarkCompleted(claim.token)
    case Cancel => MarkCancelled(claim.token)
    case Fail(error) => MarkFailed(claim.token, error)
    case Retry(error) => RequeueRunning(claim.token, error)
  }

  function RecoveryUpdate(job: Job): Update
    requires job.token.Some?
  {
    if job.attempts + 1 > MaxTotalAttempts(job.maxRetries)
    then MarkFailed(job.token.value, RECOVERY_FINAL_FAILURE_MESSAGE)
    else RequeueRunning(job.token.value, RECOVERY_REQUEUE_MESSAGE)
  }

  function CancelUpdate(job: Job): Option<Update> {
    if job.status in {Pending, Queued} then Some(CancelPendingOrQueued)
    else if job.status == Running && job.cancelRequestedAt == None then Some(RequestRunningCancellation)
    else None
  }

  predicate Expired(job: Job, now: int) {
    job.status == Running && job.leaseExpiresAt.Some? && job.leaseExpiresAt.value < now
  }

  /* ----- Statements: when a session can run one, and the session afterwards ----- */

  // The session's staged dispatch event for `j`, unless the table already has one to publish.
  function EventIfAbsent(s: State, x: Session, j: nat, availableAt: int, at: int): map<nat, Event> {
    if HasUnpublished(s.events, j) then x.events
    else x.events[s.nextId := DispatchEvent(s.nextId, j, availableAt, at)]
  }

  // The event was due when a batch was claimed at time `at`: only a recorded failure puts an event off.
  predicate ClaimedAt(event: Event, at: int) {
    event.publishAttempts == 0 ==> event.availableAt <= at
  }

  predicate PublishEnabled(s: State, a: nat, op: PublishOp) {
    if op.LockEvent? then
      && a !in s.sessions && op.e in s.events && s.events[op.e].publishedAt.None? && EventFree(s, a, op.e)
      && ClaimedAt(s.events[op.e], op.at)
    else
      && a in s.sessions
      && var p := s.sessions[a].phase;
         match op
         case LockDispatchedJob => p.PubEvent? && p.e in s.events && RowFree(s, a, s.events[p.e].job)
         case Discard(_) =>
           p.PubJob? && p.e in s.events && var j := s.events[p.e].job;
           j in s.jobs ==> s.jobs[j].status !in {Pending, Queued}
         case Prepare(_) =>
           p.PubJob? && p.e in s.events && var j := s.events[p.e].job;
           j in s.jobs && s.jobs[j].status in {Pending, Queued}
         case Stamp(_) => p.PubSent? && p.e in s.events
         case RollBack(_) => p.PubSend? || p.PubSent?
  }

  function PublishSession(s: State, a: nat, op: PublishOp): Session
    requires PublishEnabled(s, a, op)
  {
    if op.LockEvent? then Session(PubEvent(op.e), {}, {}, {op.e}, map[], map[])
    else
      var x := s.sessions[a];
      var e := x.phase.e;
      match op
      case LockDispatchedJob => x.(phase := PubJob(e), rows := {s.events[e].job})
      case Discard(at) => x.(phase := PubReady(e, None), events := map[e := Published(s.events[e], at)])
      case Prepare(at) =>
        var j := s.events[e].job;
        x.(phase := PubSend(e),
           jobs := if s.jobs[j].status == Pending then map[j := Updated(s.jobs[j], MarkQueued, at)] else map[])
      case Stamp(at) =>
        x.(phase := PubReady(e, Some(x.phase.sent)), events := map[e := Published(s.events[e], at)])
      case RollBack(retryAt) => Idle(PubFailed(e, retryAt))
  }

  predicate ClaimEnabled(c: Config, s: State, a: nat, op: ClaimOp) {
    && a in s.sessions
    && var p := s.sessions[a].phase;
       && (p.Received? || p.ClaimOwner? || p.ClaimJob? || p.ClaimCounted?)
       && p.m in s.queue
       && var j := s.queue[p.m].job;
          if op.DropMissing? then p.Received? && j !in s.jobs
          else
            && j in s.jobs
            && var job := s.jobs[j];
               match op
               case LockOwner => p.Received? && OwnerFree(s, a, job.owner)
               case LockRow => p.ClaimOwner? && RowFree(s, a, j)
               case DropNotQueued => p.ClaimJob? && job.status != Queued
               case FailExhausted(_, _) =>
                 p.ClaimJob? && job.status == Queued && job.attempts + 1 > MaxTotalAttempts(job.maxRetries)
               case CountRunning =>
                 p.ClaimJob? && job.status == Queued && job.attempts + 1 <= MaxTotalAttempts(job.maxRetries)
               case Defer(_) => p.ClaimCounted? && p.running >= c.maxRunningPerUser
               case Run(_, _) => p.ClaimCounted? && p.running < c.maxRunningPerUser
  }

  function ClaimSession(c: Config, s: State, a: nat, op: ClaimOp): Session
    requires ClaimEnabled(c, s, a, op)
  {
    var x := s.sessions[a];
    var m := x.phase.m;
    if op.DropMissing? then Idle(Handled(m))
    else
      var j := s.queue[m].job;
      var job := s.jobs[j];
      match op
      case LockOwner => x.(phase := ClaimOwner(m), owners := {job.owner})
      case LockRow => x.(phase := ClaimJob(m), rows := {j})
      case DropNotQueued => Idle(Handled(m))
      case FailExhausted(error, at) =>
        x.(phase := ClaimReady(m, None),
           jobs := map[j := Updated(job, MarkFailedWithoutExecution(Queued, error), at)])
      case CountRunning => x.(phase := ClaimCounted(m, |RunningOf(s.jobs, job.owner)|))
      case Defer(at) =>
        x.(phase := ClaimReady(m, None), events := EventIfAbsent(s, x, j, at + CAPACITY_DEFER_SECONDS, at))
      case Run(worker, at) =>
        x.(phase := ClaimReady(m, Some(Claim(j, s.nextId, job.attempts + 1, job.maxRetries))),
           jobs := map[j := Updated(job, MarkRunning(worker, s.nextId, at + c.leaseSeconds), at)])
  }

  predicate ExecuteEnabled(s: State, a: nat, op: ExecuteOp) {
    && a in s.sessions
    && var p := s.sessions[a].phase;
       match op
       case CheckCancel => p.Executing? && RowFree(s, a, p.claim.job)
       case Finish(v) =>
         && p.Executing?
         && (v.Cancel? ==> p.sawCancel)
         && (v.Retry? ==> p.claim.attempt < MaxTotalAttempts(p.claim.maxRetries))
       case SettleStale =>
         && p.Settling?
         && (p.claim.job in s.jobs ==> !Matches(s.jobs[p.claim.job], VerdictUpdate(p.claim, p.verdict)))
       case SettleUpdate(_) =>
         && p.Settling? && RowFree(s, a, p.claim.job)
         && p.claim.job in s.jobs && Matches(s.jobs[p.claim.job], VerdictUpdate(p.claim, p.verdict))
       case SettleEvent(_, _) => p.SettleRequeued?
  }

  // The answer of the cancellation check: the row is gone, belongs to another token, or carries a request.
  predicate CancelFlag(s: State, claim: Claim) {
    || claim.job !in s.jobs
    || s.jobs[claim.job].token != Some(claim.token)
    || s.jobs[claim.job].cancelRequestedAt.Some?
  }

  function ExecuteSession(s: State, a: nat, op: ExecuteOp): Session
    requires ExecuteEnabled(s, a, op)
  {
    var x := s.sessions[a];
    var m, claim := x.phase.m, x.phase.claim;
    match op
    case CheckCancel => x.(phase := Executing(m, claim, x.phase.sawCancel || CancelFlag(s, claim)))
    case Finish(v) => x.(phase := Settling(m, claim, v))
    case SettleStale => Idle(Handled(m))
    case SettleUpdate(at) =>
      var v := x.phase.verdict;
      x.(phase := if v.Retry? then SettleRequeued(m, claim, v) else SettleReady(m, claim, v),
         rows := {claim.job},
         jobs := map[claim.job := Updated(s.jobs[claim.job], VerdictUpdate(claim, v), at)])
    case SettleEvent(availableAt, at) =>
      x.(phase := SettleReady(m, claim, x.phase.verdict), events := EventIfAbsent(s, x, claim.job, availableAt, at))
  }

  // The order in which expired rows are taken.
  function LeaseKey(job: Job, j: nat): SortKey {
    SortKey(if job.leaseExpiresAt.Some? then job.leaseExpiresAt.value else 0, job.createdAt, j)
  }

  // Row `j` is the first of the locked rows that are still to be recovered.
  predicate NextToRecover(s: State, todo: set<nat>, j: nat) {
    && j in todo && todo <= s.jobs.Keys
    && forall k | k in todo :: AtMost(LeaseKey(s.jobs[j], j), LeaseKey(s.jobs[k], k))
  }

  predicate RecoverEnabled(s: State, a: nat, op: RecoverOp) {
    if op.LockExpired? then
      a !in s.sessions && forall j | j in op.ids :: j in s.jobs && Expired(s.jobs[j], op.at) && RowFree(s, a, j)
    else
      && a in s.sessions && s.sessions[a].phase.Recovering?
      && var p := s.sessions[a].phase;
         match op
         case RecoverOne(j, _) =>
           && p.requeued == None && NextToRecover(s, p.todo, j)
           && j in s.jobs && s.jobs[j].token.Some? && OwnerFree(s, a, s.jobs[j].owner)
         case RecoverEvent(_) => p.requeued.Some?
  }

  function RecoverSession(s: State, a: nat, op: RecoverOp): Session
    requires RecoverEnabled(s, a, op)
  {
    match op
    case LockExpired(ids, at) => Session(Recovering(ids, None, at), {}, ids, {}, map[], map[])
    case RecoverOne(j, at) =>
      var x, u := s.sessions[a], RecoveryUpdate(s.jobs[j]);
      x.(phase := Recovering(x.phase.todo - {j}, if u.RequeueRunning? then Some(j) else None, x.phase.readAt),
         owners := x.owners + {s.jobs[j].owner},
         jobs := x.jobs[j := Updated(s.jobs[j], u, at)])
    case RecoverEvent(at) =>
      var x := s.sessions[a];
      x.(phase := Recovering(x.phase.todo, None, x.phase.readAt),
         events := EventIfAbsent(s, x, x.phase.requeued.value, at, at))
  }

  predicate CancelEnabled(s: State, a: nat, op: CancelOp) {
    match op
    case LockForCancel(j) => a !in s.sessions && j in s.jobs && RowFree(s, a, j)
    case WriteCancel(_) =>
      && a in s.sessions && s.sessions[a].phase.CancelJob?
      && var j := s.sessions[a].phase.j;
         j in s.jobs && CancelUpdate(s.jobs[j]).Some?
  }

  function CancelSession(s: State, a: nat, op: CancelOp): Session
    requires CancelEnabled(s, a, op)
  {
    match op
    case LockForCancel(j) => Session(CancelJob(j), {}, {j}, {}, map[], map[])
    case WriteCancel(at) =>
      var x := s.sessions[a];
      var j := x.phase.j;
      x.(phase := CancelReady(j), jobs := map[j := Updated(s.jobs[j], CancelUpdate(s.jobs[j]).value, at)])
  }

  /* ----- Steps ----- */

  // A statement uses up one fresh identifier, whether or not it needs one.
  function With(s: State, a: nat, x: Session): State {
    s.(nextId := s.nextId + 1, sessions := s.sessions[a := x])
  }

  // The broker takes back what a lost session had not acknowledged.
  function Redelivered(queue: map<nat, Message>, a: nat): map<nat, Message> {
    map m | m in queue :: if queue[m].holder == Some(a) then queue[m].(holder := None) else queue[m]
  }

  function CommitSession(s: State, a: nat): State
    requires a in s.sessions
  {
    var x := s.sessions[a];
    var next := AfterCommit(x.phase);
    s.(jobs := s.jobs + x.jobs,
       events := s.events + x.events,
       sessions := if next.Some? then s.sessions[a := Idle(next.value)] else s.sessions - {a})
  }

  function CreateJob(s: State, owner: nat, maxRetries: nat, at: int): State {
    var j, e := s.nextId, s.nextId + 1;
    s.(nextId := s.nextId + 2,
       jobs := s.jobs[j := NewJob(owner, maxRetries, at)],
       events := s.events[e := DispatchEvent(e, j, at, at)])
  }

  function DeliverMessage(s: State, a: nat, m: nat): State
    requires m in s.queue
  {
    s.(queue := s.queue[m := s.queue[m].(holder := Some(a))], sessions := s.sessions[a := Idle(Received(m))])
  }

  // The message carries the job id of the event's payload, not of the row that was locked.
  function SendMessage(s: State, a: nat): State
    requires a in s.sessions && s.sessions[a].phase.PubSend? && s.sessions[a].phase.e in s.events
  {
    var x := s.sessions[a];
    var payload := s.events[x.phase.e].payload;
    s.(nextId := s.nextId + 1,
       queue := s.queue[s.nextId := Message(payload.jobId, payload.eventId, None)],
       sessions := s.sessions[a := x.(phase := PubSent(x.phase.e, s.nextId))])
  }

  function RecordPublishFailure(s: State, a: nat, error: string): State
    requires a in s.sessions && s.sessions[a].phase.PubFailed?
  {
    var p := s.sessions[a].phase;
    s.(events := if p.e in s.events && s.events[p.e].publishedAt.None?
                 then s.events[p.e := FailureRecorded(s.events[p.e], error, p.retryAt)] else s.events,
       sessions := s.sessions - {a})
  }

  predicate Enabled(c: Config, s: State, st: Step) {
    match st
    // A new row refers to its owner's row, and waits for whoever has locked that.
    case Create(owner, _, _) => forall b | b in s.sessions :: owner !in s.sessions[b].owners
    case Deliver(a, m) => a !in s.sessions && m in s.queue && s.queue[m].holder == None
    case Ack(a) => a in s.sessions && s.sessions[a].phase.Handled?
    case Send(a) => a in s.sessions && s.sessions[a].phase.PubSend? && s.sessions[a].phase.e in s.events
    case RecordFailure(a, _) =>
      // An update that matches no row does not wait for a lock.
      && a in s.sessions && s.sessions[a].phase.PubFailed?
      && var e := s.sessions[a].phase.e;
         EventFree(s, a, e) || (e in s.events && s.events[e].publishedAt.Some?)
    case Commit(a) => a in s.sessions && Committing(s.sessions[a].phase)
    case Raise(a) => a in s.sessions && MessageOf(s.sessions[a].phase).Some?
    case Crash(a) => a in s.sessions
    case Publish(a, op) => PublishEnabled(s, a, op)
    case ToClaim(a, op) => ClaimEnabled(c, s, a, op)
    case Execute(a, op) => ExecuteEnabled(s, a, op)
    case Recover(a, op) => RecoverEnabled(s, a, op)
    case ApiCancel(a, op) => CancelEnabled(s, a, op)
  }

  function Apply(c: Config, s: State, st: Step): State
    requires Enabled(c, s, st)
  {
    match st
    case Create(owner, maxRetries, at) => CreateJob(s, owner, maxRetries, at)
    case Deliver(a, m) => DeliverMessage(s, a, m)
    case Ack(a) => s.(queue := s.queue - {s.sessions[a].phase.m}, sessions := s.sessions - {a})
    case Send(a) => SendMessage(s, a)
    case RecordFailure(a, error) => RecordPublishFailure(s, a, error)
    case Commit(a) => CommitSession(s, a)
    case Raise(a) => With(s, a, Idle(Stranded(MessageOf(s.sessions[a].phase).value)))
    case Crash(a) => s.(queue := Redelivered(s.queue, a), sessions := s.sessions - {a})
    case Publish(a, op) => With(s, a, PublishSession(s, a, op))
    case ToClaim(a, op) => With(s, a, ClaimSession(c, s, a, op))
    case Execute(a, op) => With(s, a, ExecuteSession(s, a, op))
    case Recover(a, op) => With(s, a, RecoverSession(s, a, op))
    case ApiCancel(a, op) => With(s, a, CancelSession(s, a, op))
  }

  ghost predicate Next(c: Config, s: State, s': State) {
    exists st :: Enabled(c, s, st) && s' == Apply(c, s, st)
  }
}
