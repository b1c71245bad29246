/**
 The running system: the database, the broker and the open sessions, changed in
 place.  Every change is a step of the protocol, and `run` records them all, so
 that whatever holds over runs holds of the programs that use this class.
 */
module Cluster {
  import opened Wrappers
  import opened JobState
  import opened JobRows
  import opened Outbox
  import opened Protocol
  import opened ProtocolInvariant
  import opened ProtocolSteps
  import opened ProtocolShared
  import opened ProtocolCommit
  import opened ProtocolRuns
  import opened ProtocolHonesty
  import opened Selection

  // From `s` to `t`, other processes ran, and the row locks of session `me` kept what it relies on.
  ghost predicate Spared(s: State, t: State, me: nat) {
    && (me in t.sessions <==> me in s.sessions)
    && s.jobs.Keys <= t.jobs.Keys && s.events.Keys <= t.events.Keys
    && (me in s.sessions ==>
          var x := s.sessions[me];
          && t.sessions[me] == x
          && (forall j | j in x.rows && j in s.jobs ::
                t.jobs[j] == s.jobs[j] && HasUnpublished(t.events, j) == HasUnpublished(s.events, j))
          && (forall e | e in x.evs && e in s.events :: e in t.events && t.events[e] == s.events[e])
          && (forall m | m in s.queue && s.queue[m].holder == Some(me) :: m in t.queue && t.queue[m] == s.queue[m]))
  }

  // The session that takes a step, if one does.
  function ActorOf(st: Step): Option<nat> {
    match st
    case Create(_, _, _) => None
    case _ => Some(st.a)
  }

  lemma CommitSpares(c: Config, s: State, a: nat, me: nat)
    requires Inv(c, s) && a in s.sessions && Committing(s.sessions[a].phase) && a != me
    ensures Spared(s, CommitSession(s, a), me)
  {
    assert SessionInv(c, s, s.sessions[a]);
    ReadyIsStaged(c, s, s.sessions[a]);
    CommitMovesRows(c, s, a);
    if me in s.sessions {
      CommitLeavesOthers(c, s, a, me);
    }
  }

  lemma CreateSpares(c: Config, s: State, owner: nat, maxRetries: nat, at: int, me: nat)
    requires Inv(c, s)
    ensures Spared(s, CreateJob(s, owner, maxRetries, at), me)
  {
    IdsAreBelow(c, s);
    CreateLeavesSessions(s, owner, maxRetries, at);
  }

  lemma RecordFailureSpares(c: Config, s: State, a: nat, error: string, me: nat)
    requires QueueInv(s) && Enabled(c, s, RecordFailure(a, error)) && a != me
    ensures Spared(s, RecordPublishFailure(s, a, error), me)
  {
    RecordFailureLeavesSessions(c, s, a, error);
  }

  lemma StatementSpares(c: Config, s: State, st: Step, me: nat)
    requires Enabled(c, s, st) && ActorOf(st) != Some(me)
    requires st.Publish? || st.ToClaim? || st.Execute? || st.Recover? || st.ApiCancel?
    ensures Spared(s, Apply(c, s, st), me)
  {
  }

  lemma BrokerSpares(c: Config, s: State, st: Step, me: nat)
    requires QueueInv(s) && Enabled(c, s, st) && ActorOf(st) != Some(me)
    requires st.Deliver? || st.Send? || st.Ack? || st.Raise? || st.Crash?
    ensures Spared(s, Apply(c, s, st), me)
  {
  }

  /** What a session relies on between its statements is what every step of the others grants. */
  lemma OthersSpareALockHolder(c: Config, s: State, st: Step, me: nat)
    requires Inv(c, s) && Enabled(c, s, st) && ActorOf(st) != Some(me)
    ensures Spared(s, Apply(c, s, st), me)
  {
    match st
    case Create(owner, maxRetries, at) => CreateSpares(c, s, owner, maxRetries, at, me);
    case Commit(a) => CommitSpares(c, s, a, me);
    case RecordFailure(a, error) => RecordFailureSpares(c, s, a, error, me);
    case Deliver(_, _) => BrokerSpares(c, s, st, me);
    case Send(_) => BrokerSpares(c, s, st, me);
    case Ack(_) => BrokerSpares(c, s, st, me);
    case Raise(_) => BrokerSpares(c, s, st, me);
    case Crash(_) => BrokerSpares(c, s, st, me);
    case _ => StatementSpares(c, s, st, me);
  }

  // Whoever commits a start has locked the owner.
  lemma CommitStartsOfOwner(c: Config, s: State, a: nat, me: nat, owner: nat)
    requires Inv(c, s) && a in s.sessions && Committing(s.sessions[a].phase)
    requires a != me && me in s.sessions && owner in s.sessions[me].owners
    ensures RunningOf(CommitSession(s, a).jobs, owner) <= RunningOf(s.jobs, owner)
  {
    var x, t := s.sessions[a], CommitSession(s, a);
    assert SessionInv(c, s, x) && Apart(x, s.sessions[me]);
    ReadyIsStaged(c, s, x);
    forall j | j in RunningOf(t.jobs, owner) ensures j in RunningOf(s.jobs, owner) {
      assert j in x.jobs ==> StagedRow(s, x, j);
    }
  }

  /** What the lock on an owner's row is for: nobody else creates or starts a job of that owner. */
  lemma OwnersStandStill(c: Config, s: State, st: Step, me: nat, owner: nat)
    requires Inv(c, s) && Enabled(c, s, st) && ActorOf(st) != Some(me)
    requires me in s.sessions && owner in s.sessions[me].owners
    ensures var t := Apply(c, s, st);
            && RunningOf(t.jobs, owner) <= RunningOf(s.jobs, owner)
            && forall j | j in t.jobs && t.jobs[j].owner == owner :: j in s.jobs
  {
    hide Inv;
    if st.Commit? {
      CommitStartsOfOwner(c, s, st.a, me, owner);
      CommitMovesRows(c, s, st.a);
    } else if !st.Create? {
      OnlyCommitsWriteRows(c, s, st);
    }
  }

  lemma MergeOne<K, V>(rows: map<K, V>, k: K, row: V)
    ensures rows + map[k := row] == rows[k := row]
  {
  }

  /** So it is what any number of their steps grants. */
  lemma SparedIsTransitive(s: State, t: State, u: State, me: nat)
    requires Spared(s, t, me) && Spared(t, u, me)
    ensures Spared(s, u, me)
  {
  }

  // The row as the verdict on `claim` leaves it.
  predicate SettledAs(row: Job, claim: Claim, v: Verdict, now: int) {
    && row.token == None && row.worker == None && row.leaseExpiresAt == None
    && row.attempts == claim.attempt && row.updatedAt == now
    && match v
       case Complete => row.status == Completed && row.finishedAt == Some(now) && row.lastError == None
       case Cancel => row.status == Cancelled && row.finishedAt == Some(now) && row.cancelRequestedAt.Some?
       case Fail(error) => row.status == Failed && row.finishedAt == Some(now) && row.lastError == Some(error)
       case Retry(error) => row.status == Queued && row.finishedAt == None && row.lastError == Some(error)
  }

  /** Whatever happened to the row meanwhile: while it carries the claim's token, the verdict settles it. */
  lemma VerdictSettles(s: State, x: Session, now: int)
    requires x.phase.Settling? && ClaimInv(s, x.phase) && JobsInv(s)
    requires x.phase.claim.job in s.jobs
    requires Matches(s.jobs[x.phase.claim.job], VerdictUpdate(x.phase.claim, x.phase.verdict))
    ensures var claim, v := x.phase.claim, x.phase.verdict;
            SettledAs(Updated(s.jobs[claim.job], VerdictUpdate(claim, v), now), claim, v, now)
  {
    var job := s.jobs[x.phase.claim.job];
    UpdatesTellTheirCause(job, VerdictUpdate(x.phase.claim, x.phase.verdict), now);
  }

  // No row carries the token, and no session has a claim with it.
  ghost predicate TokenUnused(s: State, token: nat) {
    && (forall j | j in s.jobs :: s.jobs[j].token != Some(token))
    && (forall b | b in s.sessions && ClaimOf(s.sessions[b].phase).Some? ::
          ClaimOf(s.sessions[b].phase).value.token != token)
  }

  // Session `me` is in phase `p`.
  predicate At(s: State, me: nat, p: Phase) {
    me in s.sessions && s.sessions[me].phase == p
  }

  // Only session `me` changed, and it is now in phase `p`.
  ghost predicate Moved(s: State, t: State, me: nat, p: Phase) {
    && t.jobs == s.jobs && t.events == s.events && t.queue == s.queue
    && At(t, me, p) && t.sessions.Keys == s.sessions.Keys + {me}
  }

  // Session `me` was lost, and the broker took its message back.
  ghost predicate Lost(s: State, t: State, me: nat) {
    && t.jobs == s.jobs && t.events == s.events && t.queue.Keys == s.queue.Keys
    && t.sessions.Keys == s.sessions.Keys - {me}
  }

  // A first dispatch event, made at time `now` and due after `wait` seconds.
  ghost predicate NewFor(event: Event, j: nat, now: int, wait: nat) {
    && event.job == j && event.publishedAt == None && event.publishAttempts == 0
    && event.createdAt == now && event.availableAt == now + wait
  }

  // What create_dispatch_event_if_absent stages for job `j`.
  ghost predicate EventStaged(events: map<nat, Event>, x: Session, j: nat, now: int, wait: nat) {
    if HasUnpublished(events, j) then x.events == map[]
    else exists e | e in x.events :: e !in events && x.events.Keys == {e} && NewFor(x.events[e], j, now, wait)
  }

  // Job `j` has an event to publish: the one it had, or else a new one for time `availableAt`.
  ghost predicate WokenAt(before: map<nat, Event>, after: map<nat, Event>, j: nat, now: int, wait: nat) {
    && HasUnpublished(after, j)
    && (HasUnpublished(before, j) ==> after == before)
    && (forall e | e in before :: e in after && after[e] == before[e])
    && (forall e | e in after && e !in before :: NewFor(after[e], j, now, wait))
  }

  // Event `e` is published, or somebody other than `me` has locked it.
  ghost predicate Taken(s: State, me: nat, e: nat) {
    && e in s.events
    && (s.events[e].publishedAt.Some? || exists b :: b in s.sessions && b != me && e in s.sessions[b].evs)
  }

  lemma StagedEventWakes(events: map<nat, Event>, x: Session, j: nat, now: int, wait: nat)
    requires EventStaged(events, x, j, now, wait)
    ensures WokenAt(events, events + x.events, j, now, wait)
  {
    if !HasUnpublished(events, j) {
      var e :| e in x.events && e !in events && x.events.Keys == {e} && NewFor(x.events[e], j, now, wait);
      assert Unpublished(events + x.events, e, j);
    } else {
      assert events + x.events == events;
    }
  }

  // The events that claim_due_batch selects from, under its sort columns.
  function DueKeys(s: State, me: nat, now: int): map<nat, SortKey> {
    map e | e in s.events && Due(s.events, e, now) && EventFree(s, me, e) ::
      SortKey(s.events[e].availableAt, s.events[e].createdAt, 0)
  }

  // The rows that claim_expired_running_jobs_for_update selects from, under its sort columns.
  function ExpiredKeys(s: State, me: nat, now: int): map<nat, SortKey> {
    map j | j in s.jobs && Expired(s.jobs[j], now) && RowFree(s, me, j) ::
      LeaseKey(s.jobs[j], j)
  }

  // An event to publish that is due and that nobody has locked.
  ghost predicate Claimable(s: State, e: nat, now: int) {
    && e in s.events && s.events[e].publishedAt == None && s.events[e].availableAt <= now
    && forall b | b in s.sessions :: e !in s.sessions[b].evs
  }

  // By the columns available_at and created_at.
  predicate NoLater(events: map<nat, Event>, x: nat, y: nat) {
    && x in events && y in events
    && (|| events[x].availableAt < events[y].availableAt
        || (events[x].availableAt == events[y].availableAt && events[x].createdAt <= events[y].createdAt))
  }

  // The batch is claimable events without repetition, in order, and as many as the limit allows; whatever else is
  // claimable comes no earlier.
  ghost predicate FirstDue(s: State, now: int, limit: nat, batch: seq<nat>) {
    && |batch| <= limit && (forall e | e in batch :: Claimable(s, e, now))
    && (forall i, k | 0 <= i < k < |batch| ::
          batch[i] != batch[k] && NoLater(s.events, batch[i], batch[k]))
    && (forall y | y in s.events && y !in batch && Claimable(s, y, now) ::
          |batch| == limit && forall x | x in batch :: NoLater(s.events, x, y))
  }

  lemma FirstDueOnColumns(s: State, me: nat, now: int, limit: nat, batch: seq<nat>)
    requires me !in s.sessions && IsFirst(DueKeys(s, me, now), limit, batch)
    ensures FirstDue(s, now, limit, batch)
  {
    var keys := DueKeys(s, me, now);
    assert forall e | e in keys :: Claimable(s, e, now);
    forall y | y in s.events && y !in batch && Claimable(s, y, now) ensures |batch| == limit && y in keys {
      LeftOutByTheLimit(keys, limit, batch, y);
    }
  }

  // A running job whose lease is over and whose row nobody has locked.
  ghost predicate Recoverable(s: State, j: nat, now: int) {
    && j in s.jobs && s.jobs[j].status == Running
    && s.jobs[j].leaseExpiresAt.Some? && s.jobs[j].leaseExpiresAt.value < now
    && forall b | b in s.sessions :: j !in s.sessions[b].rows
  }

  // By the columns lease_expires_at, created_at and id.
  predicate ExpiresFirst(jobs: map<nat, Job>, x: nat, y: nat) {
    && x in jobs && y in jobs && jobs[x].leaseExpiresAt.Some? && jobs[y].leaseExpiresAt.Some?
    && var a, b := jobs[x].leaseExpiresAt.value, jobs[y].leaseExpiresAt.value;
       || a < b
       || (a == b && jobs[x].createdAt < jobs[y].createdAt)
       || (a == b && jobs[x].createdAt == jobs[y].createdAt && x < y)
  }

  // The batch is recoverable jobs in order, and as many as the limit allows; whatever else is recoverable comes later.
  ghost predicate FirstExpired(s: State, now: int, limit: nat, batch: seq<nat>) {
    && |batch| <= limit && (forall j | j in batch :: Recoverable(s, j, now))
    && (forall i, k | 0 <= i < k < |batch| :: ExpiresFirst(s.jobs, batch[i], batch[k]))
    && (forall y | y in s.jobs && y !in batch && Recoverable(s, y, now) ::
          |batch| == limit && forall x | x in batch :: ExpiresFirst(s.jobs, x, y))
  }

  lemma KeysOrderTheColumns(jobs: map<nat, Job>, x: nat, y: nat)
    requires x in jobs && y in jobs && x != y && jobs[x].leaseExpiresAt.Some? && jobs[y].leaseExpiresAt.Some?
    requires AtMost(LeaseKey(jobs[x], x), LeaseKey(jobs[y], y))
    ensures ExpiresFirst(jobs, x, y)
  {
  }

  lemma FirstExpiredOnColumns(s: State, me: nat, now: int, limit: nat, batch: seq<nat>)
    requires me !in s.sessions && IsFirst(ExpiredKeys(s, me, now), limit, batch)
    ensures FirstExpired(s, now, limit, batch)
  {
    hide LeaseKey, AtMost, ExpiresFirst;
    var keys := ExpiredKeys(s, me, now);
    assert forall j | j in keys :: Recoverable(s, j, now);
    forall i, k | 0 <= i < k < |batch| ensures ExpiresFirst(s.jobs, batch[i], batch[k]) {
      KeysOrderTheColumns(s.jobs, batch[i], batch[k]);
    }
    forall y | y in s.jobs && y !in batch && Recoverable(s, y, now)
      ensures |batch| == limit && forall x | x in batch :: ExpiresFirst(s.jobs, x, y)
    {
      LeftOutByTheLimit(keys, limit, batch, y);
      forall x | x in batch ensures ExpiresFirst(s.jobs, x, y) {
        KeysOrderTheColumns(s.jobs, x, y);
      }
    }
  }

  class Cluster {
    const config: Config
    const calm: bool      // no other process runs, no time passes, and the database refuses nothing
    const brokerUp: bool  // the broker accepts and confirms every message
    const startedAt: int
    var clock: int
    var nextId: nat
    var jobs: map<nat, Job>
    var events: map<nat, Event>
    var queue: map<nat, Message>
    var sessions: map<nat, Session>
    ghost var run: seq<State>

    function Snapshot(): State
      reads this
    {
      State(nextId, jobs, events, queue, sessions)
    }

    ghost predicate Valid()
      reads this
    {
      |run| > 0 && IsRun(config, run) && run[|run| - 1] == Snapshot() && (calm ==> clock == startedAt)
    }

    constructor (config: Config, calm: bool, brokerUp: bool, clock: int)
      ensures Valid() && Snapshot() == INITIAL
      ensures this.config == config && this.calm == calm && this.brokerUp == brokerUp && this.clock == clock
    {
      this.config, this.calm, this.brokerUp, this.startedAt, this.clock := config, calm, brokerUp, clock, clock;
      nextId, jobs, events, queue, sessions := 0, map[], map[], map[], map[];
      run := [INITIAL];
    }

    // The system as a run has left it.
    constructor Resume(config: Config, calm: bool, brokerUp: bool, clock: int, s: State, ghost run: seq<State>)
      requires IsRun(config, run) && run[|run| - 1] == s
      ensures Valid() && Snapshot() == s && this.run == run
      ensures this.config == config && this.calm == calm && this.brokerUp == brokerUp && this.clock == clock
    {
      this.config, this.calm, this.brokerUp, this.startedAt, this.clock := config, calm, brokerUp, clock, clock;
      nextId, jobs, events, queue, sessions := s.nextId, s.jobs, s.events, s.queue, s.sessions;
      this.run := run;
    }

    // The session is alone in a calm system.
    ghost predicate Alone(me: nat)
      reads this
    {
      calm && sessions.Keys == {me}
    }

    ghost predicate SameTables(s: State)
      reads this
    {
      jobs == s.jobs && events == s.events && queue == s.queue
    }

    // Runs one statement, or one exchange with the broker.
    method Do(st: Step)
      requires Valid() && Enabled(config, Snapshot(), st)
      modifies this
      ensures Valid() && run == old(run) + [Snapshot()] && clock == old(clock)
      ensures Snapshot() == Apply(config, old(Snapshot()), st)
    {
      var t := Apply(config, Snapshot(), st);
      ExtendRun(config, run, st);
      nextId, jobs, events, queue, sessions := t.nextId, t.jobs, t.events, t.queue, t.sessions;
      run := run + [t];
    }

    // Runs a statement that waits for a lock or commits.  The database may refuse it - a deadlock, a lost
    // connection, a failed commit - and then the session is lost.
    method Attempt(me: nat, st: Step, free: bool) returns (alive: bool)
      requires Valid() && me in sessions && (free ==> Enabled(config, Snapshot(), st))
      modifies this
      ensures Valid() && old(run) <= run && clock == old(clock)
      ensures alive ==> free && Snapshot() == Apply(config, old(Snapshot()), st)
      ensures !alive ==> Snapshot() == Apply(config, old(Snapshot()), Crash(me))
      ensures calm && free ==> alive
    {
      var refused := Refuses(calm);
      alive := free && !refused;
      if alive {
        Do(st);
      } else {
        Do(Crash(me));
      }
    }

    // Time passes, and other processes take any number of steps, in any order.
    method Yield(me: nat)
      requires Valid()
      modifies this
      ensures Valid() && old(run) <= run && Spared(old(Snapshot()), Snapshot(), me) && old(clock) <= clock
      ensures calm ==> Snapshot() == old(Snapshot()) && run == old(run) && clock == old(clock)
    {
      hide IsRun, Next, Enabled, Apply;
      if calm {
        return;
      }
      var elapsed: nat, steps: nat := *, *;
      clock := clock + elapsed;
      for i := 0 to steps
        invariant Valid() && old(run) <= run && Spared(old(Snapshot()), Snapshot(), me) && old(clock) <= clock
      {
        var st: Step := *;
        if Enabled(config, Snapshot(), st) && ActorOf(st) != Some(me) {
          ghost var before := Snapshot();
          InvHolds();
          OthersSpareALockHolder(config, before, st, me);
          Do(st);
          SparedIsTransitive(old(Snapshot()), before, Snapshot(), me);
        }
      }
    }

    lemma InvHolds()
      requires Valid()
      ensures Inv(config, Snapshot())
    {
      ReachableKeepsInv(config, run, |run| - 1);
    }

    lemma MySession(me: nat)
      requires Valid() && me in sessions
      ensures SessionInv(config, Snapshot(), sessions[me])
    {
      InvHolds();
    }

    // After its commit, job `j` of the session has an event to publish.
    ghost predicate PromisesEvent(me: nat, j: nat)
      reads this
    {
      me in sessions && !sessions[me].phase.PubReady? && Woken(Snapshot(), sessions[me], j)
    }

    // A session that defers or retries the job of its message has seen to an event for it.
    lemma WaitingJobsHaveAnEvent(me: nat, j: nat)
      requires Valid() && me in sessions
      requires var p := sessions[me].phase;
               || (p.SettleReady? && p.verdict.Retry? && p.claim.job == j)
               || (p.ClaimReady? && p.granted == None && p.m in queue && queue[p.m].job == j)
      ensures PromisesEvent(me, j)
    {
      MySession(me);
    }

    lemma PromisesAreKept(me: nat, j: nat)
      requires Valid() && PromisesEvent(me, j) && Committing(sessions[me].phase)
      ensures HasUnpublished(CommitSession(Snapshot(), me).events, j)
    {
      InvHolds();
      assert SessionInv(config, Snapshot(), sessions[me]);
      ReadyIsStaged(config, Snapshot(), sessions[me]);
      OnlyPublishersLockEvents(config, Snapshot(), sessions[me]);
      CommitWakes(Snapshot(), me, j);
    }

    // Makes the session's staged rows visible, or loses the session.
    method Commit(me: nat) returns (alive: bool)
      requires Valid() && me in sessions && Committing(sessions[me].phase)
      modifies this
      ensures Valid() && old(run) <= run && clock == old(clock)
      ensures alive ==> Snapshot() == CommitSession(old(Snapshot()), me)
      ensures !alive ==> Lost(old(Snapshot()), Snapshot(), me)
      ensures calm ==> alive
    {
      alive := Attempt(me, Step.Commit(me), true);
    }

    /* ----- The worker's statements ----- */

    lemma MessageIsHeld(me: nat, m: nat)
      requires Valid() && me in sessions && MessageOf(sessions[me].phase) == Some(m)
      ensures m in queue && queue[m].holder == Some(me) && queue[m].job in jobs
    {
      InvHolds();
    }

    method Receive(me: nat, m: nat)
      requires Valid() && me !in sessions && m in queue && queue[m].holder == None
      modifies this
      ensures Valid() && old(run) <= run && clock == old(clock)
      ensures Snapshot() == DeliverMessage(old(Snapshot()), me, m)
    {
      Do(Deliver(me, m));
    }

    // lock_by_id on the owner of the message's job.
    method LockOwner(me: nat, m: nat) returns (alive: bool)
      requires Valid() && At(Snapshot(), me, Received(m))
      modifies this
      ensures Valid() && old(run) <= run && clock == old(clock)
      ensures alive ==> Moved(old(Snapshot()), Snapshot(), me, ClaimOwner(m))
      ensures !alive ==> Lost(old(Snapshot()), Snapshot(), me)
      ensures calm && old(sessions.Keys) == {me} ==> alive
    {
      MessageIsHeld(me, m);
      alive := Attempt(me, ToClaim(me, Protocol.LockOwner), OwnerFree(Snapshot(), me, jobs[queue[m].job].owner));
    }

    // get_execution_candidate_for_update on the message's job.
    method LockCandidate(me: nat, m: nat) returns (alive: bool)
      requires Valid() && At(Snapshot(), me, ClaimOwner(m))
      modifies this
      ensures Valid() && old(run) <= run && clock == old(clock)
      ensures alive ==> Moved(old(Snapshot()), Snapshot(), me, ClaimJob(m)) && CandidateLocked(me, m)
      ensures !alive ==> Lost(old(Snapshot()), Snapshot(), me)
      ensures calm && old(sessions.Keys) == {me} ==> alive
    {
      MessageIsHeld(me, m);
      MySession(me);
      alive := Attempt(me, ToClaim(me, LockRow), RowFree(Snapshot(), me, queue[m].job));
    }

    ghost predicate CandidateLocked(me: nat, m: nat)
      reads this
    {
      me in sessions && m in queue && queue[m].job in jobs && sessions[me].rows == {queue[m].job}
    }

    method DropMessage(me: nat, m: nat)
      requires Valid() && At(Snapshot(), me, ClaimJob(m))
      requires m in queue && queue[m].job in jobs && jobs[queue[m].job].status != Queued
      modifies this
      ensures Valid() && old(run) <= run && clock == old(clock)
      ensures Moved(old(Snapshot()), Snapshot(), me, Handled(m))
    {
      Do(ToClaim(me, DropNotQueued));
    }

    lemma JobIsAwaited(j: nat)
      requires Valid() && j in jobs
      ensures Awaited(Snapshot(), j)
    {
      InvHolds();
    }

    lemma RowFacts()
      requires Valid()
      ensures forall j | j in jobs :: RowOk(jobs[j])
    {
      InvHolds();
    }

    // A queued job always has an attempt left.
    lemma QueuedJobsHaveAnAttemptLeft(j: nat)
      requires Valid() && j in jobs && jobs[j].status == Queued
      ensures jobs[j].attempts + 1 <= MaxTotalAttempts(jobs[j].maxRetries)
    {
      InvHolds();
    }

    method CountRunningForOwner(me: nat, m: nat) returns (running: nat)
      requires Valid() && At(Snapshot(), me, ClaimJob(m))
      requires m in queue && queue[m].job in jobs && jobs[queue[m].job].status == Queued
      requires jobs[queue[m].job].attempts + 1 <= MaxTotalAttempts(jobs[queue[m].job].maxRetries)
      modifies this
      ensures Valid() && old(run) <= run && clock == old(clock)
      ensures Moved(old(Snapshot()), Snapshot(), me, ClaimCounted(m, running))
      ensures sessions[me].rows == old(sessions[me].rows)
      ensures running == |RunningOf(jobs, jobs[queue[m].job].owner)|
    {
      Do(ToClaim(me, CountRunning));
      running := sessions[me].phase.running;
    }

    method DeferDispatch(me: nat, m: nat, running: nat, now: int)
      requires Valid() && At(Snapshot(), me, ClaimCounted(m, running)) && running >= config.maxRunningPerUser
      requires m in queue
      modifies this
      ensures Valid() && old(run) <= run && clock == old(clock)
      ensures Moved(old(Snapshot()), Snapshot(), me, ClaimReady(m, None))
      ensures sessions[me].jobs == map[]
      ensures EventStaged(events, sessions[me], queue[m].job, now, 3)
    {
      NextIdIsFree();
      MySession(me);
      ghost var e := nextId;
      Do(ToClaim(me, Defer(now)));
      assert !HasUnpublished(events, queue[m].job) ==> e in sessions[me].events;
    }

    lemma NextTokenIsUnused()
      requires Valid()
      ensures TokenUnused(Snapshot(), nextId)
    {
      InvHolds();
      forall b | b in sessions && ClaimOf(sessions[b].phase).Some?
        ensures ClaimOf(sessions[b].phase).value.token != nextId
      {
        assert SessionInv(config, Snapshot(), sessions[b]);
      }
    }

    lemma NextIdIsFree()
      requires Valid()
      ensures nextId !in events
    {
      InvHolds();
    }

    method MarkRunning(me: nat, m: nat, running: nat, workerId: string, now: int) returns (claim: Claim)
      requires Valid() && At(Snapshot(), me, ClaimCounted(m, running)) && running < config.maxRunningPerUser
      requires m in queue && queue[m].job in jobs
      modifies this
      ensures Valid() && old(run) <= run && clock == old(clock)
      ensures Moved(old(Snapshot()), Snapshot(), me, ClaimReady(m, Some(claim)))
      ensures var j := queue[m].job;
              && claim.job == j && claim.attempt == jobs[j].attempts + 1 && claim.maxRetries == jobs[j].maxRetries
              && sessions[me].events == map[]
              && sessions[me].jobs ==
                 map[j := Updated(jobs[j], Update.MarkRunning(workerId, claim.token, now + config.leaseSeconds), now)]
      ensures TokenUnused(old(Snapshot()), claim.token)
    {
      hide IsRun, Next, TokenUnused;
      MySession(me);
      NextTokenIsUnused();
      Do(ToClaim(me, Run(workerId, now)));
      claim := sessions[me].phase.granted.value;
    }

    // What a worker knows of a claim that it executes.
    lemma ClaimFacts(me: nat)
      requires Valid() && me in sessions && sessions[me].phase.Executing?
      ensures var claim := sessions[me].phase.claim;
              && claim.job in jobs && 1 <= claim.attempt <= MaxTotalAttempts(claim.maxRetries)
              && claim.attempt <= claim.maxRetries + 1 && claim.attempt <= 4
    {
      MySession(me);
    }

    // The cancellation check runs in a transaction of its own; a refused one raises in the handler.
    method PollCancel(me: nat, m: nat, claim: Claim, saw: bool) returns (answer: Option<bool>)
      requires Valid() && At(Snapshot(), me, Executing(m, claim, saw))
      modifies this
      ensures Valid() && old(run) <= run && clock == old(clock)
      ensures answer.Some? ==>
                && run == old(run) + [Snapshot()]
                && (answer.value <==>
                      || claim.job !in jobs || jobs[claim.job].token != Some(claim.token)
                      || jobs[claim.job].cancelRequestedAt.Some?)
                && Moved(old(Snapshot()), Snapshot(), me, Executing(m, claim, saw || answer.value))
      ensures answer == None ==> Snapshot() == old(Snapshot())
      ensures calm && old(sessions.Keys) == {me} ==> answer.Some?
    {
      var refused := Refuses(calm);
      if refused || !RowFree(Snapshot(), me, claim.job) {
        answer := None;
      } else {
        answer := Some(CancelFlag(Snapshot(), claim));
        Do(Execute(me, CheckCancel));
      }
    }

    method Decide(me: nat, m: nat, claim: Claim, saw: bool, v: Verdict)
      requires Valid() && At(Snapshot(), me, Executing(m, claim, saw))
      requires v.Cancel? ==> saw
      requires v.Retry? ==> claim.attempt < MaxTotalAttempts(claim.maxRetries)
      modifies this
      ensures Valid() && old(run) <= run && clock == old(clock)
      ensures Moved(old(Snapshot()), Snapshot(), me, Settling(m, claim, v))
    {
      Do(Execute(me, Finish(v)));
    }

    // mark_completed, mark_cancelled, mark_failed or requeue_running, guarded by the claim's token.
    method UpdateClaimedRow(me: nat, m: nat, claim: Claim, v: Verdict, now: int) returns (alive: bool, matched: bool)
      requires Valid() && At(Snapshot(), me, Settling(m, claim, v))
      modifies this
      ensures Valid() && old(run) <= run && clock == old(clock)
      ensures claim.job in jobs
      ensures matched <==> Matches(jobs[claim.job], VerdictUpdate(claim, v))
      ensures alive && matched ==>
                && Moved(old(Snapshot()), Snapshot(), me, AfterUpdate(m, claim, v))
                && sessions[me].rows == {claim.job} && sessions[me].events == map[]
                && sessions[me].jobs == map[claim.job := Updated(jobs[claim.job], VerdictUpdate(claim, v), now)]
                && SettledAs(sessions[me].jobs[claim.job], claim, v, now)
      ensures alive && !matched ==>
                Moved(old(Snapshot()), Snapshot(), me, Handled(m)) && Retired(Snapshot(), claim.token)
      ensures !alive ==> Lost(old(Snapshot()), Snapshot(), me)
      ensures calm && old(sessions.Keys) == {me} ==> alive
    {
      hide IsRun, Next, Enabled, Apply, Updated, SettledAs, Retired;
      ClaimedJobExists(me);
      matched := Matches(jobs[claim.job], VerdictUpdate(claim, v));
      if matched {
        alive := WriteVerdict(me, m, claim, v, now);
      } else {
        alive := SkipStaleVerdict(me, m, claim, v);
      }
    }

    // The phase after the update of a row with the claim's token.
    function AfterUpdate(m: nat, claim: Claim, v: Verdict): Phase {
      if v.Retry? then SettleRequeued(m, claim, v) else SettleReady(m, claim, v)
    }

    lemma ClaimedJobExists(me: nat)
      requires Valid() && me in sessions && sessions[me].phase.Settling?
      ensures sessions[me].phase.claim.job in jobs
    {
      MySession(me);
    }

    lemma VerdictWillSettle(me: nat, now: int)
      requires Valid() && me in sessions && sessions[me].phase.Settling?
      requires var claim := sessions[me].phase.claim;
               claim.job in jobs && Matches(jobs[claim.job], VerdictUpdate(claim, sessions[me].phase.verdict))
      ensures var claim, v := sessions[me].phase.claim, sessions[me].phase.verdict;
              SettledAs(Updated(jobs[claim.job], VerdictUpdate(claim, v), now), claim, v, now)
    {
      InvHolds();
      MySession(me);
      VerdictSettles(Snapshot(), sessions[me], now);
    }

    method WriteVerdict(me: nat, m: nat, claim: Claim, v: Verdict, now: int) returns (alive: bool)
      requires Valid() && At(Snapshot(), me, Settling(m, claim, v))
      requires claim.job in jobs && Matches(jobs[claim.job], VerdictUpdate(claim, v))
      modifies this
      ensures Valid() && old(run) <= run && clock == old(clock) && claim.job in jobs
      ensures alive ==>
                && Moved(old(Snapshot()), Snapshot(), me, AfterUpdate(m, claim, v))
                && sessions[me].rows == {claim.job} && sessions[me].events == map[]
                && sessions[me].jobs == map[claim.job := Updated(jobs[claim.job], VerdictUpdate(claim, v), now)]
                && SettledAs(sessions[me].jobs[claim.job], claim, v, now)
      ensures jobs == old(jobs)
      ensures !alive ==> Lost(old(Snapshot()), Snapshot(), me)
      ensures calm && old(sessions.Keys) == {me} ==> alive
    {
      hide IsRun;
      MySession(me);
      VerdictWillSettle(me, now);
      alive := Attempt(me, Execute(me, SettleUpdate(now)), RowFree(Snapshot(), me, claim.job));
    }

    // The row does not carry the claim's token any more: nothing to update, and nothing to wait for.
    method SkipStaleVerdict(me: nat, m: nat, claim: Claim, v: Verdict) returns (alive: bool)
      requires Valid() && At(Snapshot(), me, Settling(m, claim, v))
      requires claim.job in jobs && !Matches(jobs[claim.job], VerdictUpdate(claim, v))
      modifies this
      ensures Valid() && old(run) <= run && clock == old(clock) && jobs == old(jobs)
      ensures alive ==> Moved(old(Snapshot()), Snapshot(), me, Handled(m)) && Retired(Snapshot(), claim.token)
      ensures !alive ==> Lost(old(Snapshot()), Snapshot(), me)
      ensures calm ==> alive
    {
      StaleClaimIsRetired(me, claim);
      alive := Attempt(me, Execute(me, SettleStale), true);
    }

    lemma StaleClaimIsRetired(me: nat, claim: Claim)
      requires Valid() && Holds(Snapshot(), me, claim) && claim.job in jobs
      requires sessions[me].phase.Settling?
      requires !Matches(jobs[claim.job], VerdictUpdate(claim, sessions[me].phase.verdict))
      ensures Retired(Snapshot(), claim.token)
    {
      InvHolds();
      assert SessionInv(config, Snapshot(), sessions[me]);
      UncurrentClaimIsRetired(config, Snapshot(), me, claim);
    }

    method CreateRetryEvent(me: nat, m: nat, claim: Claim, v: Verdict, wait: nat, now: int)
      requires Valid() && At(Snapshot(), me, SettleRequeued(m, claim, v))
      modifies this
      ensures Valid() && old(run) <= run && clock == old(clock)
      ensures Moved(old(Snapshot()), Snapshot(), me, SettleReady(m, claim, v))
      ensures sessions[me].jobs == old(sessions[me].jobs)
      ensures EventStaged(events, sessions[me], claim.job, now, wait)
    {
      NextIdIsFree();
      MySession(me);
      ghost var e := nextId;
      Do(Execute(me, SettleEvent(now + wait, now)));
      assert !HasUnpublished(events, claim.job) ==> e in sessions[me].events;
    }

    method Acknowledge(me: nat, m: nat)
      requires Valid() && At(Snapshot(), me, Handled(m))
      modifies this
      ensures Valid() && old(run) <= run && clock == old(clock)
      ensures jobs == old(jobs) && events == old(events)
      ensures queue == old(queue) - {m} && sessions == old(sessions) - {me}
    {
      Do(Ack(me));
    }

    /* ----- The publisher's statements ----- */

    // The events were due at time `at`, or have failed since.
    ghost predicate Claimed(batch: seq<nat>, at: int)
      reads this
    {
      forall e | e in batch :: e in events && ClaimedAt(events[e], at)
    }

    // Whatever happened since a run `before`, its claimed events still are.
    lemma ClaimsLast(before: seq<State>, batch: seq<nat>, at: int)
      requires Valid() && |before| > 0 && before <= run
      requires var events := before[|before| - 1].events;
               forall e | e in batch :: e in events && ClaimedAt(events[e], at)
      ensures Claimed(batch, at)
    {
      forall e | e in batch ensures e in events && ClaimedAt(events[e], at) {
        EventsMoveForward(config, run, |before| - 1, |run| - 1, e);
      }
    }

    // claim_due_batch, in a transaction that ends with it; a refused one raises.
    method ClaimDueBatch(me: nat, now: int, limit: nat) returns (batch: Option<seq<nat>>)
      requires Valid() && me !in sessions
      ensures batch.Some? ==> FirstDue(Snapshot(), now, limit, batch.value) && Claimed(batch.value, now)
      ensures batch.Some? ==> IsFirst(DueKeys(Snapshot(), me, now), limit, batch.value)
      ensures calm ==> batch.Some?
    {
      var refused := Refuses(calm);
      if refused {
        return None;
      }
      var due := SelectFirst(DueKeys(Snapshot(), me, now), limit);
      assert forall e | e in due :: e in DueKeys(Snapshot(), me, now);
      FirstDueOnColumns(Snapshot(), me, now, limit, due);
      batch := Some(due);
    }

    // get_by_id_for_update_unpublished, which skips a row that someone else has locked; a refused one raises.
    method TryLockEvent(me: nat, e: nat, claimedAt: int) returns (locked: Option<bool>)
      requires Valid() && me !in sessions && e in events && ClaimedAt(events[e], claimedAt)
      modifies this
      ensures Valid() && old(run) <= run && clock == old(clock)
      ensures locked.Some? && locked.value ==>
                && Moved(old(Snapshot()), Snapshot(), me, PubEvent(e)) && sessions[me].evs == {e}
                && events[e].publishedAt == None
      ensures locked.Some? && !locked.value ==> Taken(Snapshot(), me, e)
      ensures locked == None || !locked.value ==> Snapshot() == old(Snapshot())
      ensures calm && old(sessions) == map[] ==> locked == Some(events[e].publishedAt == None)
    {
      var refused := Refuses(calm);
      if refused {
        return None;
      }
      locked := Some(events[e].publishedAt.None? && EventFree(Snapshot(), me, e));
      if locked.value {
        Do(Publish(me, LockEvent(e, claimedAt)));
      }
    }

    // get_by_id_for_update on the event's job.
    method LockEventJob(me: nat, e: nat) returns (alive: bool)
      requires Valid() && At(Snapshot(), me, PubEvent(e))
      modifies this
      ensures Valid() && old(run) <= run && clock == old(clock)
      ensures e in events && events[e].job in jobs
      ensures alive ==>
                && Moved(old(Snapshot()), Snapshot(), me, PubJob(e))
                && sessions[me].rows == {events[e].job} && sessions[me].evs == {e}
      ensures !alive ==> Lost(old(Snapshot()), Snapshot(), me)
      ensures calm && old(sessions.Keys) == {me} ==> alive
    {
      hide IsRun, Next, JobsInv, QueueInv, ApartInv, CapInv, WakeInv;
      InvHolds();
      MySession(me);
      alive := Attempt(me, Publish(me, LockDispatchedJob), RowFree(Snapshot(), me, events[e].job));
    }

    // The locks of a publisher's session on an event and its job.
    ghost predicate EventLocked(me: nat, e: nat)
      reads this
    {
      && me in sessions && e in events && events[e].job in jobs
      && sessions[me].rows == {events[e].job} && sessions[me].evs == {e}
    }

    // mark_published for an event whose job needs no dispatch.
    method DiscardEvent(me: nat, e: nat, now: int)
      requires Valid() && At(Snapshot(), me, PubJob(e)) && EventLocked(me, e)
      requires jobs[events[e].job].status !in {Pending, Queued}
      modifies this
      ensures Valid() && old(run) <= run && clock == old(clock)
      ensures Moved(old(Snapshot()), Snapshot(), me, PubReady(e, None))
      ensures sessions[me].jobs == map[] && sessions[me].events == map[e := Published(events[e], now)]
    {
      MySession(me);
      Do(Publish(me, Discard(now)));
    }

    // mark_queued, for a job that is still pending; nothing to update for one that is queued already.
    method MarkQueuedIfPending(me: nat, e: nat, now: int)
      requires Valid() && At(Snapshot(), me, PubJob(e)) && EventLocked(me, e)
      requires jobs[events[e].job].status in {Pending, Queued}
      modifies this
      ensures Valid() && old(run) <= run && clock == old(clock)
      ensures Moved(old(Snapshot()), Snapshot(), me, PubSend(e)) && EventLocked(me, e)
      ensures var j := events[e].job;
              sessions[me].jobs ==
                if jobs[j].status == Pending then map[j := Updated(jobs[j], MarkQueued, now)] else map[]
    {
      MySession(me);
      Do(Publish(me, Prepare(now)));
    }

    // publish_dispatch: the broker accepts the message or not, and an accepted one may still be reported as failed.
    method PublishDispatch(me: nat, e: nat) returns (accepted: Option<nat>, raised: bool)
      requires Valid() && At(Snapshot(), me, PubSend(e)) && EventLocked(me, e)
      modifies this
      ensures Valid() && old(run) <= run && clock == old(clock)
      ensures accepted == None ==> raised && Snapshot() == old(Snapshot())
      ensures brokerUp ==> accepted.Some? && !raised
      ensures accepted.Some? ==>
                && At(Snapshot(), me, PubSent(e, accepted.value)) && sessions.Keys == old(sessions.Keys)
                && jobs == old(jobs) && events == old(events) && accepted.value !in old(queue)
                && queue == old(queue)[accepted.value := Message(events[e].job, e, None)]
      ensures me in sessions && EventLocked(me, e) && sessions[me].jobs == old(sessions[me].jobs)
    {
      accepted, raised := None, true;
      var arrives: bool := *;
      if arrives || brokerUp {
        accepted, raised := Some(nextId), *;
        if brokerUp {
          raised := false;
        }
        InvHolds();
        Do(Send(me));
      }
    }

    method StampEvent(me: nat, e: nat, sent: nat, now: int)
      requires Valid() && At(Snapshot(), me, PubSent(e, sent)) && EventLocked(me, e)
      modifies this
      ensures Valid() && old(run) <= run && clock == old(clock)
      ensures Moved(old(Snapshot()), Snapshot(), me, PubReady(e, Some(sent)))
      ensures sessions[me].jobs == old(sessions[me].jobs)
      ensures sessions[me].events == map[e := Published(events[e], now)]
    {
      Do(Publish(me, Stamp(now)));
    }

    method RollBackPublish(me: nat, e: nat, retryAt: int)
      requires Valid() && me in sessions && (sessions[me].phase.PubSend? || sessions[me].phase.PubSent?)
      requires sessions[me].phase.e == e
      modifies this
      ensures Valid() && old(run) <= run && clock == old(clock)
      ensures Moved(old(Snapshot()), Snapshot(), me, PubFailed(e, retryAt))
    {
      Do(Publish(me, RollBack(retryAt)));
    }

    // record_publish_failure, in a transaction of its own.
    method RecordPublishFailure(me: nat, e: nat, retryAt: int, error: string) returns (alive: bool)
      requires Valid() && At(Snapshot(), me, PubFailed(e, retryAt))
      modifies this
      ensures Valid() && old(run) <= run && clock == old(clock)
      ensures alive ==> Snapshot() == Protocol.RecordPublishFailure(old(Snapshot()), me, error)
      ensures alive && e in events && events[e].publishedAt == None ==>
                && events[e].availableAt == retryAt && events[e].lastError == Some(error)
                && e in old(events) && events[e].publishAttempts == old(events)[e].publishAttempts + 1
      ensures !alive ==> Lost(old(Snapshot()), Snapshot(), me)
      ensures calm && old(sessions.Keys) == {me} ==> alive
    {
      alive := Attempt(me, RecordFailure(me, error),
                       EventFree(Snapshot(), me, e) || (e in events && events[e].publishedAt.Some?));
    }

    /* ----- The recovery's statements ----- */

    // claim_expired_running_jobs_for_update, which skips the rows that someone else has locked.
    method LockExpired(me: nat, now: int, limit: nat) returns (batch: Option<seq<nat>>)
      requires Valid() && me !in sessions
      modifies this
      ensures Valid() && old(run) <= run && clock == old(clock)
      ensures batch == None ==> Snapshot() == old(Snapshot())
      ensures batch.Some? ==> FirstExpired(old(Snapshot()), now, limit, batch.value)
      ensures batch.Some? ==>
                && IsFirst(ExpiredKeys(old(Snapshot()), me, now), limit, batch.value)
                && Moved(old(Snapshot()), Snapshot(), me, Recovering(Elements(batch.value), None, now))
                && var rows := Elements(batch.value);
                   sessions[me] == Session(Recovering(rows, None, now), {}, rows, {}, map[], map[])
      ensures calm ==> batch.Some?
    {
      var refused := Refuses(calm);
      if refused {
        return None;
      }
      var rows := SelectFirst(ExpiredKeys(Snapshot(), me, now), limit);
      assert forall j | j in Elements(rows) :: j in ExpiredKeys(Snapshot(), me, now);
      FirstExpiredOnColumns(Snapshot(), me, now, limit, rows);
      Do(Recover(me, Protocol.LockExpired(Elements(rows), now)));
      batch := Some(rows);
    }

    // Locks the owner of row `j`, and runs mark_failed or requeue_running on the row.
    method RecoverRow(me: nat, todo: set<nat>, j: nat, now: int) returns (alive: bool)
      requires Valid() && At(Snapshot(), me, Recovering(todo, None, now)) && NextToRecover(Snapshot(), todo, j)
      modifies this
      ensures Valid() && old(run) <= run && clock == old(clock)
      ensures j in jobs && jobs[j].token.Some?
      ensures alive ==>
                && var requeued := if RecoveryUpdate(jobs[j]).RequeueRunning? then Some(j) else None;
                && Moved(old(Snapshot()), Snapshot(), me, Recovering(todo - {j}, requeued, now))
                && sessions[me].rows == old(sessions[me].rows) && sessions[me].events == old(sessions[me].events)
                && sessions[me].owners == old(sessions[me].owners) + {jobs[j].owner}
                && sessions[me].jobs == old(sessions[me].jobs)[j := Updated(jobs[j], RecoveryUpdate(jobs[j]), now)]
      ensures !alive ==> Lost(old(Snapshot()), Snapshot(), me)
      ensures calm && old(sessions.Keys) == {me} ==> alive
    {
      MySession(me);
      RowFacts();
      alive := Attempt(me, Recover(me, RecoverOne(j, now)), OwnerFree(Snapshot(), me, jobs[j].owner));
    }

    // create_dispatch_event_if_absent for the row that was just requeued.
    method CreateRecoveryEvent(me: nat, todo: set<nat>, j: nat, now: int)
      requires Valid() && At(Snapshot(), me, Recovering(todo, Some(j), now))
      modifies this
      ensures Valid() && old(run) <= run && clock == old(clock)
      ensures Moved(old(Snapshot()), Snapshot(), me, Recovering(todo, None, now))
      ensures sessions[me].rows == old(sessions[me].rows) && sessions[me].jobs == old(sessions[me].jobs)
      ensures sessions[me].owners == old(sessions[me].owners)
      ensures forall e | e in sessions[me].events ::
                if e in old(sessions[me].events) then sessions[me].events[e] == old(sessions[me].events)[e]
                else NewFor(sessions[me].events[e], j, now, 0) && !HasUnpublished(events, j)
    {
      MySession(me);
      assert RecoveryInv(Snapshot(), sessions[me], todo, Some(j), now);
      Do(Recover(me, RecoverEvent(now)));
    }

    /* ----- The API's cancel ----- */

    method LockForCancel(me: nat, j: nat) returns (locked: bool)
      requires Valid() && me !in sessions && j in jobs
      modifies this
      ensures Valid() && old(run) <= run && clock == old(clock)
      ensures locked ==> Moved(old(Snapshot()), Snapshot(), me, CancelJob(j)) && sessions[me].rows == {j}
      ensures !locked ==> Snapshot() == old(Snapshot())
      ensures calm && old(sessions) == map[] ==> locked
    {
      var refused := Refuses(calm);
      locked := !refused && RowFree(Snapshot(), me, j);
      if locked {
        Do(ApiCancel(me, Protocol.LockForCancel(j)));
      }
    }

    // cancel_pending_or_queued or request_running_cancellation.
    method WriteCancel(me: nat, j: nat, now: int)
      requires Valid() && At(Snapshot(), me, CancelJob(j)) && j in jobs && CancelUpdate(jobs[j]).Some?
      modifies this
      ensures Valid() && old(run) <= run && clock == old(clock)
      ensures Moved(old(Snapshot()), Snapshot(), me, CancelReady(j))
      ensures sessions[me].jobs == map[j := Updated(jobs[j], CancelUpdate(jobs[j]).value, now)]
      ensures sessions[me].events == map[]
    {
      MySession(me);
      Do(ApiCancel(me, Protocol.WriteCancel(now)));
    }

    // Leaves a transaction without a commit.
    method Close(me: nat)
      requires Valid() && me in sessions && MessageOf(sessions[me].phase) == None
      modifies this
      ensures Valid() && old(run) <= run && clock == old(clock)
      ensures jobs == old(jobs) && events == old(events) && queue == old(queue)
      ensures sessions == old(sessions) - {me}
    {
      InvHolds();
      Do(Crash(me));
    }
  }
}
