/** The outbox publisher: turn due events into broker messages, one transaction per event. */
module OutboxPublisher {
  import opened Wrappers
  import opened JobState
  import opened JobRows
  import opened Outbox
  import opened Protocol
  import opened ProtocolRuns
  import opened ProtocolHonesty
  import opened Selection
  import opened Cluster

  const PUBLISH_ERROR := "The broker did not confirm the message"

  /* ----- What processing does when nobody interferes ----- */

  function DueSet(events: map<nat, Event>, now: int): set<nat> {
    set e | e in events && Due(events, e, now)
  }

  // From `event` to `after`, at time `now`: published, or put off because of a failure.
  predicate Processed(event: Event, after: Event, now: int) {
    || after == event.(publishedAt := Some(now), lastError := None)
    || after == event.(publishAttempts := event.publishAttempts + 1, lastError := Some(PUBLISH_ERROR),
                       availableAt := now + RetryDelaySeconds(event.publishAttempts + 1))
  }

  // The job after its event was published.
  function Dispatched(job: Job, now: int): Job {
    if job.status == Pending then Updated(job, MarkQueued, now) else job
  }

  // A commit of what mark_queued stages dispatches the job.
  lemma DispatchedByMerge(jobs: map<nat, Job>, j: nat, now: int)
    requires j in jobs
    ensures var staged := if jobs[j].status == Pending then map[j := Updated(jobs[j], MarkQueued, now)] else map[];
            jobs + staged == jobs[j := Dispatched(jobs[j], now)]
  {
  }

  // From `s` to `t`, event `e` was processed; only an accepted message moves the job.
  ghost predicate ProcessedAlone(s: State, t: State, e: nat, now: int) {
    && e in s.events && s.events[e].job in s.jobs && e in t.events
    && var j := s.events[e].job;
       && t.events == s.events[e := t.events[e]] && Processed(s.events[e], t.events[e], now)
       && t.jobs == (if t.events[e].publishedAt.Some? then s.jobs[j := Dispatched(s.jobs[j], now)] else s.jobs)
       && (forall m | m in s.queue :: m in t.queue && t.queue[m] == s.queue[m])
       && (t.events[e].publishedAt.Some? && s.jobs[j].status in {Pending, Queued} ==> HasMessage(t, j, e))
  }

  // A message for the event waits to be delivered.
  ghost predicate HasMessage(s: State, j: nat, e: nat) {
    exists m | m in s.queue :: s.queue[m] == Message(j, e, None)
  }

  // From `s` to `t`, exactly the events in `batch` were processed, and the jobs of the published ones dispatched.
  ghost predicate BatchProcessed(s: State, t: State, batch: set<nat>, now: int) {
    EventsProcessed(s, t, batch, now) && JobsDispatched(s, t, batch, now)
  }

  ghost predicate EventsProcessed(s: State, t: State, batch: set<nat>, now: int) {
    && batch <= s.events.Keys && t.events.Keys == s.events.Keys
    && (forall e | e in batch :: Processed(s.events[e], t.events[e], now))
    && (forall e | e in s.events && e !in batch :: t.events[e] == s.events[e])
    && (forall m | m in s.queue :: m in t.queue && t.queue[m] == s.queue[m])
  }

  // An event in `batch` that is for job `j` was published.
  ghost predicate PublishedFor(s: State, t: State, batch: set<nat>, j: nat) {
    exists e | e in batch :: e in s.events && e in t.events && s.events[e].job == j && t.events[e].publishedAt.Some?
  }

  // Exactly the pending jobs with a published event became queued, and jobs that wait have got their message.
  ghost predicate JobsDispatched(s: State, t: State, batch: set<nat>, now: int) {
    && t.jobs.Keys == s.jobs.Keys
    && (forall j | j in s.jobs ::
          t.jobs[j] == if s.jobs[j].status == Pending && PublishedFor(s, t, batch, j)
                       then s.jobs[j].(status := Queued, updatedAt := now) else s.jobs[j])
    && (forall e | e in batch && e in s.events && e in t.events && t.events[e].publishedAt.Some? ::
          && s.events[e].job in s.jobs
          && (s.jobs[s.events[e].job].status in {Pending, Queued} ==> HasMessage(t, s.events[e].job, e)))
  }

  predicate AllPublished(events: map<nat, Event>, batch: set<nat>) {
    forall e | e in batch :: e in events && events[e].publishedAt.Some?
  }

  lemma PublishedStays(s: State, t: State, batch: set<nat>, now: int, done: set<nat>)
    requires EventsProcessed(s, t, batch, now) && AllPublished(s.events, done)
    ensures AllPublished(t.events, done)
  {
  }

  /** Published or failed, a processed event is not due again at the time of its processing. */
  lemma ProcessedIsNotDue(event: Event, after: Event, now: int)
    requires Processed(event, after, now)
    ensures after.publishedAt.Some? || after.availableAt > now
  {
    var n := event.publishAttempts + 1;
    RetryDelayIsBoundedAndMonotone(n, n);
  }

  /** A pass takes its batch out of the due events, and nothing else in or out. */
  lemma BatchLeavesTheDueSet(s: State, t: State, me: nat, now: int, limit: nat, claimed: seq<nat>)
    requires s.sessions.Keys == {} && IsFirst(DueKeys(s, me, now), limit, claimed)
    requires BatchProcessed(s, t, Elements(claimed), now)
    ensures DueSet(t.events, now) == DueSet(s.events, now) - Elements(claimed)
    ensures Elements(claimed) <= DueSet(s.events, now)
    ensures |claimed| == Min(limit, |DueSet(s.events, now)|)
    ensures |DueSet(t.events, now)| == |DueSet(s.events, now)| - |claimed|
  {
    assert DueKeys(s, me, now).Keys == DueSet(s.events, now);
    forall e | e in Elements(claimed) ensures e !in DueSet(t.events, now) {
      ProcessedIsNotDue(s.events[e], t.events[e], now);
    }
    DistinctElements(claimed);
  }

  lemma EventsCompose(s: State, mid: State, t: State, first: set<nat>, second: set<nat>, now: int)
    requires EventsProcessed(s, mid, first, now) && EventsProcessed(mid, t, second, now) && first !! second
    ensures EventsProcessed(s, t, first + second, now)
  {
    hide Processed;
  }

  lemma JobsCompose(s: State, mid: State, t: State, first: set<nat>, second: set<nat>, now: int)
    requires EventsProcessed(s, mid, first, now) && EventsProcessed(mid, t, second, now) && first !! second
    requires JobsDispatched(s, mid, first, now) && JobsDispatched(mid, t, second, now)
    ensures JobsDispatched(s, t, first + second, now)
  {
    hide Processed, HasMessage, PublishedFor;
    forall j ensures PublishedFor(s, t, first + second, j)
                     <==> PublishedFor(s, mid, first, j) || PublishedFor(mid, t, second, j) {
      PublishedForComposes(s, mid, t, first, second, now, j);
    }
    forall e | e in first && mid.events[e].publishedAt.Some? && HasMessage(mid, s.events[e].job, e)
      ensures HasMessage(t, s.events[e].job, e)
    {
      MessagesStay(mid, t, s.events[e].job, e);
    }
  }

  lemma BatchesCompose(s: State, mid: State, t: State, first: set<nat>, second: set<nat>, now: int)
    requires BatchProcessed(s, mid, first, now) && BatchProcessed(mid, t, second, now) && first !! second
    ensures BatchProcessed(s, t, first + second, now)
  {
    hide EventsProcessed, JobsDispatched;
    EventsCompose(s, mid, t, first, second, now);
    JobsCompose(s, mid, t, first, second, now);
  }

  lemma MessagesStay(s: State, t: State, j: nat, e: nat)
    requires HasMessage(s, j, e) && forall m | m in s.queue :: m in t.queue && t.queue[m] == s.queue[m]
    ensures HasMessage(t, j, e)
  {
    var m :| m in s.queue && s.queue[m] == Message(j, e, None);
    assert t.queue[m] == Message(j, e, None);
  }

  lemma PublishedForComposes(s: State, mid: State, t: State, first: set<nat>, second: set<nat>, now: int, j: nat)
    requires EventsProcessed(s, mid, first, now) && EventsProcessed(mid, t, second, now) && first !! second
    ensures PublishedFor(s, t, first + second, j)
            <==> PublishedFor(s, mid, first, j) || PublishedFor(mid, t, second, j)
  {
    hide Processed;
    if PublishedFor(s, t, first + second, j) {
      var e :| e in first + second && e in s.events && e in t.events && s.events[e].job == j
               && t.events[e].publishedAt.Some?;
      assert e in first ==> mid.events[e].publishedAt.Some?;
      assert e in second ==> mid.events[e].job == j;
    }
    if PublishedFor(s, mid, first, j) {
      var e :| e in first && e in s.events && e in mid.events && s.events[e].job == j
               && mid.events[e].publishedAt.Some?;
      assert e in first + second && t.events[e] == mid.events[e];
    }
    if PublishedFor(mid, t, second, j) {
      var e :| e in second && e in mid.events && e in t.events && mid.events[e].job == j
               && t.events[e].publishedAt.Some?;
      assert e in first + second && s.events[e] == mid.events[e];
    }
  }

  lemma AloneIsABatch(s: State, t: State, e: nat, now: int)
    requires ProcessedAlone(s, t, e, now)
    ensures BatchProcessed(s, t, {e}, now)
  {
    forall j ensures PublishedFor(s, t, {e}, j) <==> s.events[e].job == j && t.events[e].publishedAt.Some? {
      if s.events[e].job == j && t.events[e].publishedAt.Some? {
        assert e in {e};
      }
    }
  }

  lemma NextOfBatch(start: State, s: State, claimed: seq<nat>, i: nat, now: int)
    requires Distinct(claimed) && i < |claimed| && Elements(claimed) <= DueSet(start.events, now)
    requires BatchProcessed(start, s, Elements(claimed[..i]), now)
    ensures claimed[i] in s.events && s.events[claimed[i]].publishedAt == None
  {
    assert claimed[i] in Elements(claimed) && claimed[i] !in Elements(claimed[..i]);
  }

  lemma BatchGrows(start: State, s: State, t: State, claimed: seq<nat>, i: nat, now: int)
    requires Distinct(claimed) && i < |claimed| && BatchProcessed(start, s, Elements(claimed[..i]), now)
    requires ProcessedAlone(s, t, claimed[i], now)
    ensures BatchProcessed(start, t, Elements(claimed[..i + 1]), now)
  {
    hide BatchProcessed, ProcessedAlone;
    ElementsGrow(claimed, i);
    AloneIsABatch(s, t, claimed[i], now);
    BatchesCompose(start, s, t, Elements(claimed[..i]), {claimed[i]}, now);
  }

  lemma MorePublished(s: State, t: State, done: set<nat>, e: nat, now: int)
    requires ProcessedAlone(s, t, e, now) && AllPublished(s.events, done) && t.events[e].publishedAt.Some?
    ensures AllPublished(t.events, done + {e})
  {
    AloneIsABatch(s, t, e, now);
    PublishedStays(s, t, {e}, now, done);
  }

  lemma NothingYet(s: State, claimed: seq<nat>, now: int)
    ensures BatchProcessed(s, s, Elements(claimed[..0]), now) && AllPublished(s.events, Elements(claimed[..0]))
  {
    assert Elements(claimed[..0]) == {};
  }

  lemma ElementsGrow(claimed: seq<nat>, i: nat)
    requires Distinct(claimed) && i < |claimed|
    ensures Elements(claimed[..i + 1]) == Elements(claimed[..i]) + {claimed[i]}
    ensures claimed[i] !in Elements(claimed[..i]) && Elements(claimed[..i + 1]) <= Elements(claimed)
  {
    assert claimed[..i + 1] == claimed[..i] + [claimed[i]];
  }

  // Since `start`, `done` of the `due` events were processed, and the rest is still due.
  ghost predicate PartlyDone(start: State, s: State, due: set<nat>, done: set<nat>, now: int) {
    s.sessions.Keys == {} && done <= due && DueSet(s.events, now) == due - done && BatchProcessed(start, s, done, now)
  }

  lemma NothingDone(s: State, due: set<nat>, now: int)
    requires due == DueSet(s.events, now) && s.sessions == map[]
    ensures PartlyDone(s, s, due, {}, now) && due - {} == due
  {
  }

  lemma AllDone(start: State, s: State, due: set<nat>, now: int, batchSize: nat)
    requires PartlyDone(start, s, due, due, now) && batchSize >= 1
    ensures DueSet(s.events, now) == {} && BatchProcessed(start, s, due, now) && PassesFor(|due - due|, batchSize) == 0
  {
    assert due - due == {};
  }

  lemma PassPublishes(s: State, t: State, claimed: seq<nat>, done: set<nat>, now: int)
    requires BatchProcessed(s, t, Elements(claimed), now)
    requires AllPublished(s.events, done) && AllPublished(t.events, Elements(claimed))
    ensures AllPublished(t.events, done + Elements(claimed))
  {
    PublishedStays(s, t, Elements(claimed), now, done);
  }

  lemma NoneDue(events: map<nat, Event>, now: int)
    requires DueSet(events, now) == {}
    ensures forall e | e in events && events[e].publishedAt == None :: events[e].availableAt > now
  {
    forall e | e in events && events[e].publishedAt == None ensures events[e].availableAt > now {
      assert e !in DueSet(events, now);
    }
  }

  lemma PassSets(start: State, s: State, t: State, due: set<nat>, done: set<nat>, me: nat, now: int, limit: nat,
                claimed: seq<nat>)
    requires limit >= 1 && PartlyDone(start, s, due, done, now) && t.sessions.Keys == {}
    requires IsFirst(DueKeys(s, me, now), limit, claimed) && BatchProcessed(s, t, Elements(claimed), now)
    ensures PartlyDone(start, t, due, done + Elements(claimed), now)
    ensures |due - (done + Elements(claimed))| == |due - done| - |claimed|
    ensures |claimed| == Min(limit, |due - done|)
    ensures |claimed| == 0 ==> done == due
  {
    hide IsFirst, DueKeys, BatchProcessed, Processed, DueSet, Elements;
    BatchLeavesTheDueSet(s, t, me, now, limit, claimed);
    BatchesCompose(start, s, t, done, Elements(claimed), now);
    assert due - (done + Elements(claimed)) == due - done - Elements(claimed);
    if |claimed| == 0 {
      assert due - done == {};
    }
  }

  lemma OnePass(start: State, s: State, t: State, due: set<nat>, done: set<nat>, me: nat, now: int, limit: nat,
                claimed: seq<nat>)
    requires limit >= 1 && PartlyDone(start, s, due, done, now) && t.sessions.Keys == {}
    requires IsFirst(DueKeys(s, me, now), limit, claimed) && BatchProcessed(s, t, Elements(claimed), now)
    ensures PartlyDone(start, t, due, done + Elements(claimed), now)
    ensures PassesFor(|due - done|, limit)
            == PassesFor(|due - (done + Elements(claimed))|, limit) + if |claimed| == 0 then 0 else 1
    ensures |claimed| == 0 ==> done == due
    ensures |claimed| > 0 ==> |due - (done + Elements(claimed))| < |due - done|
  {
    hide IsFirst, DueKeys, BatchProcessed, Processed, DueSet, Elements, PartlyDone, PassesFor;
    PassSets(start, s, t, due, done, me, now, limit, claimed);
    PassesStep(|due - done|, limit);
  }

  // The events come in the order of available_at and created_at, none twice.
  predicate InOrder(events: map<nat, Event>, done: seq<nat>) {
    forall i, k | 0 <= i < k < |done| :: done[i] != done[k] && NoLater(events, done[i], done[k])
  }

  lemma FirstDueIsInOrder(s: State, now: int, limit: nat, batch: seq<nat>)
    requires FirstDue(s, now, limit, batch)
    ensures InOrder(s.events, batch)
  {
  }

  lemma NothingIsInOrder(events: map<nat, Event>)
    ensures InOrder(events, [])
  {
  }

  lemma NextInOrder(events: map<nat, Event>, claimed: seq<nat>, i: nat, done: seq<nat>)
    requires i < |claimed| && InOrder(events, claimed) && InOrder(events, done)
    requires forall e | e in done :: e in claimed[..i]
    ensures InOrder(events, done + [claimed[i]])
  {
    forall k | 0 <= k < |done| ensures done[k] != claimed[i] && NoLater(events, done[k], claimed[i]) {
      assert done[k] in claimed[..i];
      var p :| 0 <= p < i && claimed[..i][p] == done[k];
      assert claimed[p] == done[k];
    }
  }

  ghost predicate WasTaken(run: seq<State>, start: nat, me: nat, e: nat) {
    exists p | start <= p < |run| :: Taken(run[p], me, e)
  }

  lemma ClaimedAreDue(s: State, me: nat, now: int, limit: nat, claimed: seq<nat>)
    requires IsFirst(DueKeys(s, me, now), limit, claimed)
    ensures Distinct(claimed) && Elements(claimed) <= DueSet(s.events, now)
    ensures forall e | e in claimed :: e in s.events
  {
    assert forall e | e in claimed :: e in DueKeys(s, me, now);
  }

  // From state `start` on, every event of the batch was processed, or passed over when it was taken already.
  ghost predicate NoneLeftOut(run: seq<State>, start: nat, me: nat, claimed: seq<nat>, done: seq<nat>) {
    forall e | e in claimed :: e in done || WasTaken(run, start, me, e)
  }

  lemma NobodyIsLeftOut(run: seq<State>, start: nat, me: nat, claimed: seq<nat>)
    ensures NoneLeftOut(run, start, me, claimed[..0], [])
  {
  }

  lemma LeftOutSince(run: seq<State>, first: nat, start: nat, me: nat, claimed: seq<nat>, done: seq<nat>)
    requires first <= start && NoneLeftOut(run, start, me, claimed, done)
    ensures NoneLeftOut(run, first, me, claimed, done)
  {
    forall e | e in claimed && e !in done ensures WasTaken(run, first, me, e) {
      var p :| start <= p < |run| && Taken(run[p], me, e);
    }
  }

  lemma NextIsNotLeftOut(run: seq<State>, longer: seq<State>, start: nat, me: nat, claimed: seq<nat>, i: nat,
                         done: seq<nat>, processed: bool)
    requires run <= longer && start < |run| && i < |claimed| && NoneLeftOut(run, start, me, claimed[..i], done)
    requires processed || Taken(run[|run| - 1], me, claimed[i])
    ensures NoneLeftOut(longer, start, me, claimed[..i + 1], if processed then done + [claimed[i]] else done)
  {
    forall e | e in claimed[..i + 1] && e !in (if processed then done + [claimed[i]] else done)
      ensures WasTaken(longer, start, me, e)
    {
      assert e in claimed[..i] || e == claimed[i];
      var p :| start <= p < |run| && Taken(run[p], me, e);
      assert longer[p] == run[p];
    }
  }

  class OutboxPublisher {
    const db: Cluster
    const batchSize: nat

    constructor (db: Cluster, batchSize: nat)
      ensures this.db == db && this.batchSize == batchSize
    {
      this.db, this.batchSize := db, batchSize;
    }

    // The publisher's session is in phase `p`, with event `e` and its job locked.
    ghost predicate Locked(me: nat, e: nat, p: Phase)
      reads db
    {
      At(db.Snapshot(), me, p) && db.EventLocked(me, e)
    }

    // The event is published, or it shows a counted failure, and waits the delay of that failure from `now` at least.
    ghost predicate DealtWith(e: nat, attempts: nat, now: int)
      reads db
    {
      && e in db.events
      && (db.events[e].publishedAt == None ==>
            && db.events[e].publishAttempts > attempts && db.events[e].lastError == Some(PUBLISH_ERROR)
            && db.events[e].availableAt >= now + RetryDelaySeconds(attempts + 1))
    }

    // The event's job needs no dispatch.
    method Discard(me: nat, e: nat) returns (alive: bool)
      requires db.Valid() && Locked(me, e, PubJob(e)) && db.jobs[db.events[e].job].status !in {Pending, Queued}
      modifies db
      ensures db.Valid() && old(db.run) <= db.run && me !in db.sessions
      ensures alive ==> e in db.events && db.events[e].publishedAt == Some(old(db.clock))
      ensures old(db.Alone(me)) ==>
                && alive && e in old(db.events) && db.sessions.Keys == {} && db.queue == old(db.queue)
                && db.jobs == old(db.jobs)
                && db.events == old(db.events)[e := Published(old(db.events)[e], old(db.clock))]
    {
      hide IsRun, Next, Enabled, Apply;
      db.DiscardEvent(me, e, db.clock);
      db.Yield(me);
      alive := db.Commit(me);
    }

    // Rolls back, then notes the failure in a transaction of its own.
    method RecordFailureAfterRollback(me: nat, e: nat) returns (alive: bool)
      requires db.Valid() && me in db.sessions && e in db.events
      requires db.sessions[me].phase == PubSend(e) || (db.sessions[me].phase.PubSent? && db.sessions[me].phase.e == e)
      modifies db
      ensures db.Valid() && old(db.run) <= db.run && me !in db.sessions
      ensures e in old(db.events) && (alive ==> DealtWith(e, old(db.events)[e].publishAttempts, old(db.clock)))
      ensures alive && db.events[e].publishedAt == None ==>
                db.events[e].availableAt == old(db.clock) + RetryDelaySeconds(old(db.events)[e].publishAttempts + 1)
      ensures old(db.Alone(me)) ==>
                && alive && e in old(db.events) && db.sessions.Keys == {} && db.queue == old(db.queue)
                && db.jobs == old(db.jobs)
      ensures old(db.Alone(me)) && old(db.events)[e].publishedAt.None? ==>
                db.events == old(db.events)[e := FailureRecorded(old(db.events)[e], PUBLISH_ERROR,
                    old(db.clock) + RetryDelaySeconds(old(db.events)[e].publishAttempts + 1))]
    {
      hide IsRun, Next, Enabled, Apply;
      var attempt := db.events[e].publishAttempts + 1;
      var retryAt := db.clock + RetryDelaySeconds(attempt);
      RetryDelayIsBoundedAndMonotone(attempt, attempt);
      db.RollBackPublish(me, e, retryAt);
      db.Yield(me);
      EventsMoveForward(db.config, db.run, |old(db.run)| - 1, |db.run| - 1, e);
      alive := db.RecordPublishFailure(me, e, retryAt, PUBLISH_ERROR);
    }

    method StampAccepted(me: nat, e: nat, sent: nat)
      requires db.Valid() && Locked(me, e, PubSent(e, sent))
      modifies db
      ensures db.Valid() && old(db.run) <= db.run && e in old(db.events) && me in old(db.sessions)
      ensures At(db.Snapshot(), me, PubReady(e, Some(sent))) && db.sessions[me].jobs == old(db.sessions[me].jobs)
      ensures old(db.clock) <= db.clock
      ensures db.sessions[me].events == map[e := Published(old(db.events)[e], db.clock)]
      ensures old(db.Alone(me)) ==>
                db.Alone(me) && db.SameTables(old(db.Snapshot())) && db.clock == old(db.clock)
    {
      hide IsRun, Next, Enabled, Apply, Published;
      db.Yield(me);
      db.StampEvent(me, e, sent, db.clock);
    }

    // The broker accepted message `sent`: commit the stamp, and the job's move to queued with it.
    method CommitPublished(me: nat, e: nat, sent: nat) returns (alive: bool)
      requires db.Valid() && Locked(me, e, PubSent(e, sent))
      modifies db
      ensures db.Valid() && old(db.run) <= db.run && me !in db.sessions
      ensures e in old(db.events)
      ensures alive ==>
                && e in db.events && db.events[e].publishedAt.Some?
                && old(db.clock) <= db.events[e].publishedAt.value <= db.clock
      ensures old(db.Alone(me)) ==>
                && alive && e in old(db.events) && me in old(db.sessions) && db.sessions.Keys == {}
                && db.queue == old(db.queue) && db.jobs == old(db.jobs + db.sessions[me].jobs)
                && db.events == old(db.events)[e := Published(old(db.events)[e], old(db.clock))]
    {
      hide IsRun, Next, Enabled, Apply;
      StampAccepted(me, e, sent);
      db.Yield(me);
      alive := db.Commit(me);
    }

    // The attempt to publish: mark the job queued, and send while its row is still locked.
    method SendDispatch(me: nat, e: nat) returns (accepted: Option<nat>, raised: bool)
      requires db.Valid() && Locked(me, e, PubJob(e)) && db.jobs[db.events[e].job].status in {Pending, Queued}
      modifies db
      ensures db.Valid() && old(db.run) <= db.run && old(db.clock) <= db.clock
      ensures (accepted == None ==> raised) && (db.brokerUp ==> !raised)
      ensures Locked(me, e, if accepted.Some? then PubSent(e, accepted.value) else PubSend(e))
      ensures e in old(db.events) && db.events[e] == old(db.events)[e]
      ensures old(db.Alone(me)) ==>
                && db.Alone(me) && db.jobs == old(db.jobs) && db.events == old(db.events)
                && (var j := db.events[e].job;
                    db.jobs + db.sessions[me].jobs == db.jobs[j := Dispatched(db.jobs[j], old(db.clock))])
                && (accepted == None ==> db.queue == old(db.queue))
                && (accepted.Some? ==>
                      && accepted.value !in old(db.queue)
                      && db.queue == old(db.queue)[accepted.value := Message(db.events[e].job, e, None)])
    {
      hide IsRun, Next, Enabled, Apply, Dispatched, Updated;
      DispatchedByMerge(db.jobs, db.events[e].job, db.clock);
      db.MarkQueuedIfPending(me, e, db.clock);
      db.Yield(me);
      accepted, raised := db.PublishDispatch(me, e);
    }

    method DispatchJob(me: nat, e: nat) returns (alive: bool)
      requires db.Valid() && Locked(me, e, PubJob(e)) && db.jobs[db.events[e].job].status in {Pending, Queued}
      requires db.events[e].publishedAt.None?
      modifies db
      ensures db.Valid() && old(db.run) <= db.run && me !in db.sessions
      ensures e in old(db.events) && (alive ==> DealtWith(e, old(db.events)[e].publishAttempts, old(db.clock)))
      ensures old(db.Alone(me)) ==>
                && alive && db.sessions.Keys == {}
                && ProcessedAlone(old(db.Snapshot()), db.Snapshot(), e, old(db.clock))
                && (db.brokerUp ==> db.events[e].publishedAt.Some?)
    {
      hide IsRun, Next, Enabled, Apply, RetryDelaySeconds, Dispatched;
      var accepted, raised := SendDispatch(me, e);
      if raised {
        alive := RecordFailureAfterRollback(me, e);
      } else {
        alive := CommitPublished(me, e, accepted.value);
        assert old(db.Alone(me)) ==> db.queue[accepted.value] == Message(old(db.events)[e].job, e, None);
      }
    }

    // Locks the event, unless it is published already or somebody else has it, and then its job.
    method LockEventAndJob(me: nat, e: nat, claimedAt: int) returns (alive: bool, locked: bool)
      requires db.Valid() && me !in db.sessions && e in db.events && ClaimedAt(db.events[e], claimedAt)
      modifies db
      ensures db.Valid() && old(db.run) <= db.run && old(db.clock) <= db.clock
      ensures alive && locked ==>
                Locked(me, e, PubJob(e)) && db.events[e] == old(db.events)[e] && db.events[e].publishedAt.None?
      ensures !(alive && locked) ==> me !in db.sessions
      ensures alive && !locked ==> db.Snapshot() == old(db.Snapshot()) && Taken(db.Snapshot(), me, e)
      ensures old(db.calm && db.sessions == map[] && db.events[e].publishedAt == None) ==>
                alive && locked && db.Alone(me) && db.SameTables(old(db.Snapshot()))
    {
      hide IsRun, Next, Enabled, Apply, Taken, At;
      var answer := db.TryLockEvent(me, e, claimedAt);
      alive, locked := answer.Some?, answer.Some? && answer.value;
      if locked {
        alive := LockJobOf(me, e);
      }
    }

    method LockJobOf(me: nat, e: nat) returns (alive: bool)
      requires db.Valid() && At(db.Snapshot(), me, PubEvent(e)) && e in db.sessions[me].evs
      requires e in db.events && db.events[e].publishedAt.None?
      modifies db
      ensures db.Valid() && old(db.run) <= db.run && old(db.clock) <= db.clock && e in old(db.events)
      ensures if alive then Locked(me, e, PubJob(e)) && db.events[e] == old(db.events)[e] else me !in db.sessions
      ensures old(db.Alone(me)) ==> alive && db.Alone(me) && db.SameTables(old(db.Snapshot()))
    {
      hide IsRun, Next, Enabled, Apply;
      db.Yield(me);
      alive := db.LockEventJob(me, e);
      if alive {
        db.Yield(me);
      }
    }

    /** One transaction for one event: publish it, or discard it when its job needs no dispatch. */
    method ProcessClaimedEventOnce(me: nat, e: nat, claimedAt: int) returns (alive: bool, processed: bool)
      requires db.Valid() && me !in db.sessions && e in db.events && ClaimedAt(db.events[e], claimedAt)
      modifies db
      ensures db.Valid() && old(db.run) <= db.run && me !in db.sessions
      ensures alive && !processed ==> db.Snapshot() == old(db.Snapshot()) && Taken(db.Snapshot(), me, e)
      ensures alive && processed ==> DealtWith(e, old(db.events)[e].publishAttempts, old(db.clock))
      ensures old(db.calm && db.sessions == map[] && db.events[e].publishedAt == None) ==>
                && alive && processed && db.sessions.Keys == {}
                && ProcessedAlone(old(db.Snapshot()), db.Snapshot(), e, old(db.clock))
                && (db.brokerUp ==> db.events[e].publishedAt.Some?)
    {
      hide IsRun, Next, Enabled, Apply, RetryDelaySeconds;
      alive, processed := LockEventAndJob(me, e, claimedAt);
      if alive && processed {
        if db.jobs[db.events[e].job].status in {Pending, Queued} {
          alive := DispatchJob(me, e);
        } else {
          alive := Discard(me, e);
        }
      }
    }

    // Since the events were `before`, those in `done` were published, or one more of their failures was counted.
    ghost predicate Advanced(before: map<nat, Event>, done: seq<nat>)
      reads db
    {
      forall e | e in done ::
        && e in before && e in db.events
        && (db.events[e].publishedAt.Some? || db.events[e].publishAttempts > before[e].publishAttempts)
    }

    // Publications are final, and failures are only ever added.
    lemma AdvancedLasts(prefix: seq<State>, before: map<nat, Event>, done: seq<nat>)
      requires db.Valid() && |prefix| > 0 && prefix <= db.run
      requires var events := prefix[|prefix| - 1].events;
               forall e | e in done :: e in before && e in events
                 && (events[e].publishedAt.Some? || events[e].publishAttempts > before[e].publishAttempts)
      ensures Advanced(before, done)
    {
      forall e | e in done ensures e in db.events && EventStep(prefix[|prefix| - 1].events[e], db.events[e]) {
        EventsMoveForward(db.config, db.run, |prefix| - 1, |db.run| - 1, e);
      }
    }

    // One event of the batch, and what others do until the next one.
    method ProcessNext(me: nat, ghost claimed: seq<nat>, e: nat, claimedAt: int, ghost start: map<nat, Event>,
                       ghost done: seq<nat>) returns (alive: bool, processed: bool)
      requires db.Valid() && me !in db.sessions && db.Claimed(claimed, claimedAt) && e in claimed
      requires e in start && e in db.events && start[e].publishAttempts <= db.events[e].publishAttempts
      requires Advanced(start, done)
      modifies db
      ensures db.Valid() && old(db.run) <= db.run && me !in db.sessions && db.Claimed(claimed, claimedAt)
      ensures alive && processed ==> Advanced(start, done + [e])
      ensures alive && !processed ==> Taken(old(db.Snapshot()), me, e)
      ensures Advanced(start, done)
      ensures old(db.calm && db.sessions == map[] && db.events[e].publishedAt == None) ==>
                && alive && processed && db.sessions.Keys == {}
                && ProcessedAlone(old(db.Snapshot()), db.Snapshot(), e, old(db.clock))
                && (db.brokerUp ==> db.events[e].publishedAt.Some?)
    {
      hide IsRun, Next, Enabled, Apply, RetryDelaySeconds;
      ghost var attempts := db.events[e].publishAttempts;
      alive, processed := ProcessClaimedEventOnce(me, e, claimedAt);
      AdvancedLasts(old(db.run), start, done);
      ghost var now := if alive && processed then done + [e] else done;
      ghost var prefix := db.run;
      if alive {
        db.Yield(me);
      }
      AdvancedLasts(prefix, start, now);
      db.ClaimsLast(old(db.run), claimed, claimedAt);
    }

    // The loop over the claimed events.
    method ProcessClaimed(me: nat, claimed: seq<nat>, claimedAt: int, ghost start: map<nat, Event>)
        returns (alive: bool, processedCount: nat, ghost done: seq<nat>)
      requires db.Valid() && me !in db.sessions && Distinct(claimed) && db.Claimed(claimed, claimedAt)
      requires db.calm ==> Elements(claimed) <= DueSet(db.events, db.clock)
      requires forall e | e in claimed :: e in start && start[e].publishAttempts <= db.events[e].publishAttempts
      requires InOrder(start, claimed)
      modifies db
      ensures db.Valid() && old(db.run) <= db.run && me !in db.sessions
      ensures processedCount == |done| && (forall e | e in done :: e in claimed) && Advanced(start, done)
      ensures InOrder(start, done)
      ensures alive ==> NoneLeftOut(db.run, |old(db.run)| - 1, me, claimed, done)
      ensures old(db.calm && db.sessions == map[]) ==>
                && alive && db.sessions.Keys == {} && processedCount == |claimed|
                && BatchProcessed(old(db.Snapshot()), db.Snapshot(), Elements(claimed), old(db.clock))
                && (db.brokerUp ==> AllPublished(db.events, Elements(claimed)))
    {
      hide IsRun, Next, Enabled, Apply, RetryDelaySeconds, BatchProcessed, ProcessedAlone, DueSet, Elements, Distinct;
      hide InOrder, AllPublished, NoneLeftOut, Taken;
      alive, processedCount, done := true, 0, [];
      ghost var calm := db.calm && db.sessions == map[];
      NothingYet(db.Snapshot(), claimed, db.clock);
      NothingIsInOrder(start);
      NobodyIsLeftOut(db.run, |db.run| - 1, me, claimed);
      for i := 0 to |claimed|
        invariant db.Valid() && old(db.run) <= db.run && me !in db.sessions && db.Claimed(claimed, claimedAt)
        invariant processedCount == |done| && (forall e | e in done :: e in claimed[..i]) && Advanced(start, done)
        invariant InOrder(start, done) && NoneLeftOut(db.run, |old(db.run)| - 1, me, claimed[..i], done)
        invariant calm ==> alive && db.sessions.Keys == {} && processedCount == i
        invariant calm ==> BatchProcessed(old(db.Snapshot()), db.Snapshot(), Elements(claimed[..i]), old(db.clock))
        invariant calm && db.brokerUp ==> AllPublished(db.events, Elements(claimed[..i]))
      {
        ElementsGrow(claimed, i);
        if calm {
          NextOfBatch(old(db.Snapshot()), db.Snapshot(), claimed, i, old(db.clock));
          assert db.sessions == map[];
        }
        EventsMoveForward(db.config, db.run, |old(db.run)| - 1, |db.run| - 1, claimed[i]);
        ghost var before, ran := db.Snapshot(), db.run;
        var processed;
        alive, processed := ProcessNext(me, claimed, claimed[i], claimedAt, start, done);
        if !alive {
          return;
        }
        NextIsNotLeftOut(ran, db.run, |old(db.run)| - 1, me, claimed, i, done, processed);
        if calm {
          BatchGrows(old(db.Snapshot()), before, db.Snapshot(), claimed, i, old(db.clock));
          if db.brokerUp {
            MorePublished(before, db.Snapshot(), Elements(claimed[..i]), claimed[i], old(db.clock));
          }
        }
        if processed {
          NextInOrder(start, claimed, i, done);
          processedCount, done := processedCount + 1, done + [claimed[i]];
        }
      }
      assert claimed[..|claimed|] == claimed;
    }

    /**
     One pass over the first due events.  Whatever runs in between, the count is of
     events of the batch that were published or had a failure counted, in their order,
     and an event left out was found published or locked by somebody else.
     Alone at a fixed clock it processes exactly the batch, however many of them fail.
     */
    method PublishDueBatchOnce(me: nat)
        returns (alive: bool, processedCount: nat, ghost claimed: seq<nat>, ghost done: seq<nat>)
      requires db.Valid() && me !in db.sessions
      modifies db
      ensures db.Valid() && old(db.run) <= db.run && me !in db.sessions
      ensures alive ==> FirstDue(old(db.Snapshot()), old(db.clock), batchSize, claimed)
      ensures alive ==> IsFirst(DueKeys(old(db.Snapshot()), me, old(db.clock)), batchSize, claimed)
      ensures processedCount == |done| && (forall e | e in done :: e in claimed) && Advanced(old(db.events), done)
      ensures InOrder(old(db.events), done)
      ensures alive ==> NoneLeftOut(db.run, |old(db.run)| - 1, me, claimed, done)
      ensures old(db.calm && db.sessions == map[]) ==>
                && alive && db.sessions.Keys == {} && processedCount == |claimed|
                && BatchProcessed(old(db.Snapshot()), db.Snapshot(), Elements(claimed), old(db.clock))
                && (db.brokerUp ==> AllPublished(db.events, Elements(claimed)))
    {
      hide IsRun, Next, Enabled, Apply, RetryDelaySeconds, BatchProcessed, FirstDue, InOrder, AllPublished, NoneLeftOut;
      hide IsFirst, DueKeys, DueSet, Elements, Distinct;
      var claimedAt := db.clock;
      var batch := db.ClaimDueBatch(me, claimedAt, batchSize);
      alive, processedCount, claimed, done := batch.Some?, 0, [], [];
      NothingIsInOrder(db.events);
      if alive {
        claimed := batch.value;
        ClaimedAreDue(db.Snapshot(), me, claimedAt, batchSize, claimed);
        FirstDueIsInOrder(db.Snapshot(), db.clock, batchSize, claimed);
        db.Yield(me);
        db.ClaimsLast(old(db.run), claimed, claimedAt);
        forall e | e in claimed
          ensures e in old(db.events) && old(db.events)[e].publishAttempts <= db.events[e].publishAttempts
        {
          EventsMoveForward(db.config, db.run, |old(db.run)| - 1, |db.run| - 1, e);
        }
        ghost var from := |db.run| - 1;
        alive, processedCount, done := ProcessClaimed(me, batch.value, claimedAt, old(db.events));
        if alive {
          LeftOutSince(db.run, |old(db.run)| - 1, from, me, claimed, done);
        }
      }
    }

    /**
     Repeated passes, up to the first idle one.  Alone at a fixed clock they end
     after the due events divided by the batch size, rounded up; every due event was
     processed exactly once, and no event that keeps failing holds up another.
     */
    method PublishUntilIdle(me: nat) returns (passes: nat)
      requires db.Valid() && db.calm && db.sessions == map[] && batchSize >= 1
      modifies db
      ensures db.Valid() && old(db.run) <= db.run && db.sessions.Keys == {}
      ensures forall e | e in db.events && db.events[e].publishedAt == None :: db.events[e].availableAt > old(db.clock)
      ensures passes == PassesFor(|old(DueSet(db.events, db.clock))|, batchSize)
      ensures BatchProcessed(old(db.Snapshot()), db.Snapshot(), old(DueSet(db.events, db.clock)), old(db.clock))
      ensures db.brokerUp ==> AllPublished(db.events, old(DueSet(db.events, db.clock)))
    {
      hide IsRun, Next, Enabled, Apply, DueSet, PartlyDone, PassesFor, BatchProcessed, IsFirst, DueKeys;
      ghost var start, now, due := db.Snapshot(), db.clock, DueSet(db.events, db.clock);
      ghost var done: set<nat> := {};
      NothingDone(start, due, now);
      passes := 0;
      var processed := 1;
      while processed != 0
        invariant db.Valid() && old(db.run) <= db.run && db.sessions.Keys == {}
        invariant PartlyDone(start, db.Snapshot(), due, done, now)
        invariant db.brokerUp ==> AllPublished(db.events, done)
        invariant processed == 0 ==> done == due
        invariant passes + PassesFor(|due - done|, batchSize) == PassesFor(|due|, batchSize)
        decreases |due - done|, processed
      {
        ghost var before := db.Snapshot();
        ghost var claimed, batch;
        var alive;
        assert db.sessions == map[];
        alive, processed, claimed, batch := PublishDueBatchOnce(me);
        OnePass(start, before, db.Snapshot(), due, done, me, now, batchSize, claimed);
        if db.brokerUp {
          PassPublishes(before, db.Snapshot(), claimed, done, now);
        }
        done := done + Elements(claimed);
        if processed != 0 {
          passes := passes + 1;
        }
      }
      AllDone(start, db.Snapshot(), due, now, batchSize);
      NoneDue(db.events, now);
    }
  }
}
