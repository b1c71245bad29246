/**
 The invariant of the dispatch protocol: what the committed tables, the broker
 queue and the open sessions satisfy after any number of steps.
 */
module ProtocolInvariant {
  import opened Wrappers
  import opened JobState
  import opened JobRows
  import opened Outbox
  import opened Protocol

  /* ----- The committed tables and the queue ----- */

  ghost predicate JobsInv(s: State) {
    && (forall j | j in s.jobs :: j < s.nextId && RowOk(s.jobs[j]))
    && (forall j | j in s.jobs && s.jobs[j].token.Some? :: s.jobs[j].token.value < s.nextId)
    && (forall j, k | j in s.jobs && k in s.jobs && j != k && s.jobs[j].token.Some? ::
          s.jobs[j].token != s.jobs[k].token)
  }

  ghost predicate AtMostOneUnpublished(events: map<nat, Event>) {
    forall e, f | e in events && f in events && events[e].publishedAt.None? && events[f].publishedAt.None? ::
      events[e].job == events[f].job ==> e == f
  }

  ghost predicate EventsInv(s: State) {
    && (forall e | e in s.events ::
          && e < s.nextId && s.events[e].job in s.jobs
          && s.events[e].payload == Dispatch(e, s.events[e].job))
    && AtMostOneUnpublished(s.events)
  }

  ghost predicate QueueInv(s: State) {
    && (forall m | m in s.queue :: m < s.nextId && s.queue[m].job in s.jobs)
    && (forall m | m in s.queue && s.queue[m].holder.Some? ::
          && s.queue[m].holder.value in s.sessions
          && MessageOf(s.sessions[s.queue[m].holder.value].phase) == Some(m))
    && (forall a | a in s.sessions && MessageOf(s.sessions[a].phase).Some? ::
          && MessageOf(s.sessions[a].phase).value in s.queue
          && s.queue[MessageOf(s.sessions[a].phase).value].holder == Some(a))
  }

  // No job waits for something that will not come.
  ghost predicate Awaited(s: State, j: nat)
    requires j in s.jobs
  {
    && (s.jobs[j].status == Pending ==> HasUnpublished(s.events, j))
    && (s.jobs[j].status == Queued ==> HasUnpublished(s.events, j) || HasLive(s, j))
  }

  ghost predicate WakeInv(s: State) {
    forall j {:trigger Awaited(s, j)} | j in s.jobs :: Awaited(s, j)
  }

  ghost predicate CapInv(c: Config, s: State) {
    forall owner: nat :: |RunningOf(s.jobs, owner)| <= c.maxRunningPerUser
  }

  /* ----- Open sessions ----- */

  // What two sessions never share.
  ghost predicate Apart(x: Session, y: Session) {
    && x.rows !! y.rows && x.owners !! y.owners && x.evs !! y.evs
    && x.events.Keys !! y.events.Keys
    && (ClaimOf(x.phase).Some? && ClaimOf(y.phase).Some? ==>
          ClaimOf(x.phase).value.token != ClaimOf(y.phase).value.token)
  }

  ghost predicate ApartInv(s: State) {
    forall a, b | a in s.sessions && b in s.sessions && a != b :: Apart(s.sessions[a], s.sessions[b])
  }

  ghost predicate Locks(x: Session, owners: set<nat>, rows: set<nat>, evs: set<nat>) {
    x.owners == owners && x.rows == rows && x.evs == evs
  }

  ghost predicate NothingStaged(x: Session) {
    x.jobs == map[] && x.events == map[]
  }

  // The session staged update `u` of row `j`, and no other row.
  ghost predicate StagedOnly(s: State, x: Session, j: nat, u: Update) {
    && x.jobs.Keys == {j} && j in s.jobs && Matches(s.jobs[j], u)
    && x.jobs[j] == Updated(s.jobs[j], u, x.jobs[j].updatedAt)
  }

  // The staged outbox rows are first dispatch events for jobs that have none to publish.
  ghost predicate NewEvents(s: State, x: Session) {
    && (forall e | e in x.events ::
          && e !in s.events && e < s.nextId
          && x.events[e].publishedAt.None? && x.events[e].payload == Dispatch(e, x.events[e].job)
          && x.events[e].job in x.rows && x.events[e].job in s.jobs
          && !HasUnpublished(s.events, x.events[e].job))
    && (forall e, f | e in x.events && f in x.events :: x.events[e].job == x.events[f].job ==> e == f)
  }

  // Once the session commits, job `j` has an event to publish.
  ghost predicate Woken(s: State, x: Session, j: nat) {
    HasUnpublished(s.events, j) || HasUnpublished(x.events, j)
  }

  ghost predicate PublishStaged(s: State, x: Session, e: nat) {
    && e in s.events && s.events[e].publishedAt.None? && s.events[e].job in s.jobs
    && var j := s.events[e].job;
       && Locks(x, {}, {j}, {e})
       && s.jobs[j].status in {Pending, Queued}
       && (if s.jobs[j].status == Pending then StagedOnly(s, x, j, MarkQueued) else x.jobs == map[])
  }

  ghost predicate SentFor(s: State, sent: nat, e: nat) {
    && e in s.events && sent in s.queue && s.queue[sent].event == e && s.queue[sent].job == s.events[e].job
    && Live(s, sent)
  }

  ghost predicate StampStaged(s: State, x: Session, e: nat) {
    && e in s.events && x.events.Keys == {e} && x.events[e].publishedAt.Some?
    && x.events[e] == Published(s.events[e], x.events[e].publishedAt.value)
  }

  ghost predicate RunStaged(c: Config, s: State, x: Session, claim: Claim) {
    && x.jobs.Keys == {claim.job} && claim.job in s.jobs
    && var row := x.jobs[claim.job];
       && row.worker.Some? && row.leaseExpiresAt.Some?
       && StagedOnly(s, x, claim.job, MarkRunning(row.worker.value, claim.token, row.leaseExpiresAt.value))
       && claim.attempt == s.jobs[claim.job].attempts + 1
       && |RunningOf(s.jobs, s.jobs[claim.job].owner)| < c.maxRunningPerUser
  }

  ghost predicate VerdictStaged(s: State, x: Session, claim: Claim, v: Verdict) {
    && Locks(x, {}, {claim.job}, {})
    && StagedOnly(s, x, claim.job, VerdictUpdate(claim, v))
    && (v.Cancel? ==> s.jobs[claim.job].cancelRequestedAt.Some?)
    && (v.Retry? ==> s.jobs[claim.job].attempts < MaxTotalAttempts(s.jobs[claim.job].maxRetries))
  }

  ghost predicate RecoveryStaged(s: State, x: Session, requeued: Option<nat>, j: nat)
    requires j in x.jobs
  {
    && j in s.jobs && s.jobs[j].token.Some? && s.jobs[j].status == Running
    && x.jobs[j] == Updated(s.jobs[j], RecoveryUpdate(s.jobs[j]), x.jobs[j].updatedAt)
    && (x.jobs[j].status == Queued && requeued != Some(j) ==> Woken(s, x, j))
    && (requeued == Some(j) ==> x.jobs[j].status == Queued && !HasUnpublished(x.events, j))
  }

  ghost predicate RecoveryInv(s: State, x: Session, todo: set<nat>, requeued: Option<nat>, readAt: int) {
    && x.evs == {}
    && todo <= x.rows && x.jobs.Keys == x.rows - todo
    && (forall j | j in x.rows :: j in s.jobs && Expired(s.jobs[j], readAt))
    && (requeued.Some? ==> requeued.value in x.jobs)
    && (forall j | j in x.jobs :: RecoveryStaged(s, x, requeued, j))
    && NewEvents(s, x)
    && (forall e | e in x.events :: x.events[e].job in x.jobs)
  }

  // What each phase guarantees about the session's locks and staged rows.
  ghost predicate PublisherInv(s: State, x: Session)
    requires Publishing(x.phase)
  {
    match x.phase
    case PubEvent(e) =>
      Locks(x, {}, {}, {e}) && NothingStaged(x) && e in s.events && s.events[e].publishedAt.None?
    case PubJob(e) =>
      e in s.events && s.events[e].publishedAt.None? && Locks(x, {}, {s.events[e].job}, {e}) && NothingStaged(x)
    case PubSend(e) => PublishStaged(s, x, e) && x.events == map[]
    case PubSent(e, sent) => PublishStaged(s, x, e) && x.events == map[] && SentFor(s, sent, e)
    case PubReady(e, Some(sent)) => PublishStaged(s, x, e) && StampStaged(s, x, e) && SentFor(s, sent, e)
    case PubReady(e, None) =>
      && StampStaged(s, x, e) && s.events[e].publishedAt.None?
      && Locks(x, {}, {s.events[e].job}, {e}) && x.jobs == map[]
      && (s.events[e].job in s.jobs ==> s.jobs[s.events[e].job].status !in {Pending, Queued})
    case PubFailed(_, _) => x == Idle(x.phase)
  }

  ghost predicate ClaimantInv(c: Config, s: State, x: Session)
    requires Undecided(x.phase)
  {
    if x.phase.Received? || x.phase.Stranded? then x == Idle(x.phase)
    else
      && x.phase.m in s.queue && s.queue[x.phase.m].job in s.jobs && x.evs == {}
      && var j := s.queue[x.phase.m].job;
         && x.owners == {s.jobs[j].owner} && x.rows == (if x.phase.ClaimOwner? then {} else {j})
         && match x.phase
            case ClaimCounted(_, running) =>
              NothingStaged(x) && s.jobs[j].status == Queued && |RunningOf(s.jobs, s.jobs[j].owner)| <= running
            case ClaimReady(_, Some(claim)) => claim.job == j && RunStaged(c, s, x, claim) && x.events == map[]
            case ClaimReady(_, None) =>
              s.jobs[j].status == Queued && x.jobs == map[] && NewEvents(s, x) && Woken(s, x, j)
            case _ => NothingStaged(x)
  }

  ghost predicate ExecutorInv(s: State, x: Session)
    requires Granted(x.phase)
  {
    match x.phase
    case SettleRequeued(_, claim, v) => v.Retry? && VerdictStaged(s, x, claim, v) && x.events == map[]
    case SettleReady(_, claim, v) =>
      VerdictStaged(s, x, claim, v) && NewEvents(s, x) && if v.Retry? then Woken(s, x, claim.job) else x.events == map[]
    case _ => x == Idle(x.phase)
  }

  ghost predicate CancellerInv(s: State, x: Session)
    requires x.phase.CancelJob? || x.phase.CancelReady?
  {
    && x.phase.j in s.jobs && Locks(x, {}, {x.phase.j}, {}) && x.events == map[]
    && (x.phase.CancelJob? ==> x.jobs == map[])
    && (x.phase.CancelReady? ==>
          var u := CancelUpdate(s.jobs[x.phase.j]);
          u.Some? && StagedOnly(s, x, x.phase.j, u.value))
  }

  ghost predicate PhaseInv(c: Config, s: State, x: Session) {
    if Publishing(x.phase) then PublisherInv(s, x)
    else if Undecided(x.phase) then ClaimantInv(c, s, x)
    else if Granted(x.phase) then ExecutorInv(s, x)
    else if x.phase.Recovering? then RecoveryInv(s, x, x.phase.todo, x.phase.requeued, x.phase.readAt)
    else if x.phase.Handled? then x == Idle(x.phase)
    else CancellerInv(s, x)
  }

  // The row of a claim, if it still carries the claim's token, is in the state the claim left it in.
  ghost predicate ClaimInv(s: State, p: Phase) {
    ClaimOf(p).Some? ==>
      var claim := ClaimOf(p).value;
      && claim.token < s.nextId && claim.job in s.jobs
      && claim.maxRetries == s.jobs[claim.job].maxRetries
      && 1 <= claim.attempt <= MaxTotalAttempts(claim.maxRetries)
      && (forall j | j in s.jobs && s.jobs[j].token == Some(claim.token) ::
            !p.ClaimReady? && j == claim.job && s.jobs[j].attempts == claim.attempt)
      && (((p.Executing? && p.sawCancel) || (p.Settling? && p.verdict.Cancel?)) ==>
            s.jobs[claim.job].token == Some(claim.token) ==> s.jobs[claim.job].cancelRequestedAt.Some?)
      && (p.Settling? && p.verdict.Retry? ==> claim.attempt < MaxTotalAttempts(claim.maxRetries))
  }

  ghost predicate SessionInv(c: Config, s: State, x: Session) {
    PhaseInv(c, s, x) && ClaimInv(s, x.phase)
  }

  ghost predicate SessionsInv(c: Config, s: State) {
    forall a {:trigger SessionInv(c, s, s.sessions[a])} | a in s.sessions :: SessionInv(c, s, s.sessions[a])
  }

  ghost predicate TablesInv(c: Config, s: State) {
    JobsInv(s) && EventsInv(s) && QueueInv(s) && CapInv(c, s) && ApartInv(s)
  }

  ghost predicate Inv(c: Config, s: State) {
    TablesInv(c, s) && WakeInv(s) && SessionsInv(c, s)
  }

  /* ----- Steps of one session leave the others alone ----- */

  // From `s` to `t`, nothing that session `x` relies on has changed.
  ghost predicate Undisturbed(s: State, t: State, x: Session) {
    && s.nextId <= t.nextId
    && s.jobs.Keys <= t.jobs.Keys
    && (forall j | j in s.jobs :: t.jobs[j].owner == s.jobs[j].owner && t.jobs[j].maxRetries == s.jobs[j].maxRetries)
    && (forall j | j in x.rows && j in s.jobs ::
          t.jobs[j] == s.jobs[j] && HasUnpublished(t.events, j) == HasUnpublished(s.events, j))
    && (forall e | e in x.evs && e in s.events :: e in t.events && t.events[e] == s.events[e])
    && (forall e | e in x.events && e !in s.events :: e !in t.events)
    && (forall m | m in s.queue && MessageOf(x.phase) == Some(m) :: m in t.queue && t.queue[m].job == s.queue[m].job)
    && (forall m | m in s.queue && s.queue[m].job in x.rows && Live(s, m) ::
          Live(t, m) && t.queue[m].job == s.queue[m].job && t.queue[m].event == s.queue[m].event)
    && (forall owner | owner in x.owners :: RunningOf(t.jobs, owner) <= RunningOf(s.jobs, owner))
    && (ClaimOf(x.phase).Some? ==> ClaimUndisturbed(s, t, ClaimOf(x.phase).value))
  }

  ghost predicate ClaimUndisturbed(s: State, t: State, claim: Claim) {
    && (forall j | j in t.jobs && t.jobs[j].token == Some(claim.token) ::
          && j in s.jobs && s.jobs[j].token == t.jobs[j].token && s.jobs[j].attempts == t.jobs[j].attempts
          && (s.jobs[j].cancelRequestedAt.Some? ==> t.jobs[j].cancelRequestedAt.Some?))
  }

  lemma UndisturbedKeepsNewEvents(s: State, t: State, x: Session)
    requires NewEvents(s, x) && Undisturbed(s, t, x)
    ensures NewEvents(t, x)
  {
  }

  lemma UndisturbedKeepsStaged(s: State, t: State, x: Session, j: nat, u: Update)
    requires StagedOnly(s, x, j, u) && Undisturbed(s, t, x) && j in x.rows
    ensures StagedOnly(t, x, j, u)
  {
  }

  lemma UndisturbedKeepsPublisher(s: State, t: State, x: Session)
    requires EventsInv(s) && Publishing(x.phase) && PublisherInv(s, x) && Undisturbed(s, t, x)
    ensures PublisherInv(t, x)
  {
  }

  lemma UndisturbedKeepsClaimant(c: Config, s: State, t: State, x: Session)
    requires Undecided(x.phase) && ClaimantInv(c, s, x) && Undisturbed(s, t, x)
    ensures ClaimantInv(c, t, x)
  {
    forall owner | owner in x.owners ensures |RunningOf(t.jobs, owner)| <= |RunningOf(s.jobs, owner)| {
      SubsetSize(RunningOf(t.jobs, owner), RunningOf(s.jobs, owner));
    }
    if x.phase.ClaimReady? && x.phase.granted == None {
      UndisturbedKeepsNewEvents(s, t, x);
    }
  }

  lemma UndisturbedKeepsExecutor(s: State, t: State, x: Session)
    requires Granted(x.phase) && ExecutorInv(s, x) && Undisturbed(s, t, x)
    ensures ExecutorInv(t, x)
  {
    if x.phase.SettleRequeued? || x.phase.SettleReady? {
      UndisturbedKeepsStaged(s, t, x, x.phase.claim.job, VerdictUpdate(x.phase.claim, x.phase.verdict));
      UndisturbedKeepsNewEvents(s, t, x);
    }
  }

  lemma UndisturbedKeepsRecovery(s: State, t: State, x: Session)
    requires x.phase.Recovering? && RecoveryInv(s, x, x.phase.todo, x.phase.requeued, x.phase.readAt)
    requires Undisturbed(s, t, x)
    ensures RecoveryInv(t, x, x.phase.todo, x.phase.requeued, x.phase.readAt)
  {
    UndisturbedKeepsNewEvents(s, t, x);
    forall j | j in x.jobs ensures RecoveryStaged(t, x, x.phase.requeued, j) {
      assert RecoveryStaged(s, x, x.phase.requeued, j);
    }
  }

  lemma UndisturbedKeepsClaim(s: State, t: State, x: Session)
    requires ClaimInv(s, x.phase) && Undisturbed(s, t, x)
    ensures ClaimInv(t, x.phase)
  {
  }

  lemma UndisturbedKeepsSession(c: Config, s: State, t: State, x: Session)
    requires EventsInv(s) && SessionInv(c, s, x) && Undisturbed(s, t, x)
    ensures SessionInv(c, t, x)
  {
    UndisturbedKeepsClaim(s, t, x);
    if Publishing(x.phase) {
      UndisturbedKeepsPublisher(s, t, x);
    } else if Undecided(x.phase) {
      UndisturbedKeepsClaimant(c, s, t, x);
    } else if Granted(x.phase) {
      UndisturbedKeepsExecutor(s, t, x);
    } else if x.phase.Recovering? {
      UndisturbedKeepsRecovery(s, t, x);
    }
  }
}
