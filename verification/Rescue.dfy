/**
 No job is beyond help: from every state that any run can reach, the publisher, the
 recovery and a worker can still bring any job to its end.
 */
module Rescue {
  import opened Wrappers
  import opened JobState
  import opened JobRows
  import opened Outbox
  import opened Protocol
  import opened ProtocolRuns
  import opened Cluster
  import P = OutboxPublisher
  import R = StaleRunningRecovery
  import W = JobWorker

  // No lease reaches as far as `late`.
  ghost predicate AfterAllLeases(jobs: map<nat, Job>, ids: set<nat>, late: int) {
    forall j | j in ids && j in jobs && jobs[j].leaseExpiresAt.Some? :: jobs[j].leaseExpiresAt.value < late
  }

  method LastLease(jobs: map<nat, Job>) returns (late: int)
    ensures AfterAllLeases(jobs, jobs.Keys, late)
  {
    late := 0;
    var rest := jobs.Keys;
    while rest != {}
      invariant rest <= jobs.Keys && AfterAllLeases(jobs, jobs.Keys - rest, late)
      decreases |rest|
    {
      var j :| j in rest;
      if jobs[j].leaseExpiresAt.Some? && late <= jobs[j].leaseExpiresAt.value {
        late := jobs[j].leaseExpiresAt.value + 1;
      }
      rest := rest - {j};
    }
    assert jobs.Keys - rest == jobs.Keys;
  }

  // No event is due after `late`.
  ghost predicate AllDueBy(events: map<nat, Event>, ids: set<nat>, late: int) {
    forall e | e in ids && e in events :: events[e].availableAt <= late
  }

  method LastDue(events: map<nat, Event>) returns (late: int)
    ensures AllDueBy(events, events.Keys, late)
  {
    late := 0;
    var rest := events.Keys;
    while rest != {}
      invariant rest <= events.Keys && AllDueBy(events, events.Keys - rest, late)
      decreases |rest|
    {
      var e :| e in rest;
      late := Max(late, events[e].availableAt);
      rest := rest - {e};
    }
    assert events.Keys - rest == events.Keys;
  }

  // Every open session is lost.
  method CrashAll(db: Cluster)
    requires db.Valid()
    modifies db
    ensures db.Valid() && old(db.run) <= db.run && db.sessions == map[]
    ensures db.jobs == old(db.jobs) && db.events == old(db.events) && db.clock == old(db.clock)
  {
    while db.sessions != map[]
      invariant db.Valid() && old(db.run) <= db.run
      invariant db.jobs == old(db.jobs) && db.events == old(db.events) && db.clock == old(db.clock)
      decreases |db.sessions|
    {
      assert db.sessions.Keys != {};
      var a :| a in db.sessions.Keys;
      assert |db.sessions - {a}| == |db.sessions| - 1 by {
        assert (db.sessions - {a}).Keys == db.sessions.Keys - {a};
      }
      db.Do(Crash(a));
    }
  }

  ghost predicate NothingRuns(jobs: map<nat, Job>) {
    forall j | j in jobs :: jobs[j].status != Running
  }

  // A job that is not running, and has not ended, is pending or queued.
  lemma RecoveryStopsAll(s: State, t: State, now: int)
    requires AfterAllLeases(s.jobs, s.jobs.Keys, now)
    requires forall j | j in s.jobs :: RowOk(s.jobs[j])
    requires R.BatchRecovered(R.RowsOf(s.jobs, R.ExpiredSet(s.jobs, now)), t, now)
    requires R.OnlyRecovered(s, t, R.ExpiredSet(s.jobs, now), now)
    ensures NothingRuns(t.jobs)
  {
    forall j | j in t.jobs ensures t.jobs[j].status != Running {
      if j in R.ExpiredSet(s.jobs, now) {
        assert j in R.RowsOf(s.jobs, R.ExpiredSet(s.jobs, now));
      } else {
        assert t.jobs[j] == s.jobs[j];
      }
    }
  }

  lemma RecoveryKeepsAllDue(s: State, t: State, batch: set<nat>, now: int)
    requires R.OnlyRecovered(s, t, batch, now) && AllDueBy(s.events, s.events.Keys, now)
    ensures AllDueBy(t.events, t.events.Keys, now)
  {
  }

  // Whatever runs is taken back: all leases are over.
  method StopAll(db: Cluster, me: nat)
    requires db.Valid() && db.calm && db.sessions == map[] && AfterAllLeases(db.jobs, db.jobs.Keys, db.clock)
    requires AllDueBy(db.events, db.events.Keys, db.clock)
    modifies db
    ensures db.Valid() && old(db.run) <= db.run && db.sessions == map[]
    ensures NothingRuns(db.jobs) && old(db.jobs.Keys) <= db.jobs.Keys && AllDueBy(db.events, db.events.Keys, db.clock)
  {
    hide IsRun, Next, Enabled, Apply, AfterAllLeases, AllDueBy, RowOk, NothingRuns;
    db.RowFacts();
    var recovery := new R.StaleRunningRecovery(db, 1);
    var batches := recovery.RecoverUntilIdle(me);
    RecoveryStopsAll(old(db.Snapshot()), db.Snapshot(), old(db.clock));
    RecoveryKeepsAllDue(old(db.Snapshot()), db.Snapshot(), R.ExpiredSet(old(db.jobs), old(db.clock)), db.clock);
  }

  // A message for the job waits to be delivered.
  predicate Ready(s: State, m: nat, j: nat) {
    m in s.queue && s.queue[m].job == j && s.queue[m].holder == None
  }

  lemma LiveMeansReady(s: State, j: nat)
    requires HasLive(s, j) && s.sessions == map[]
    ensures exists m | m in s.queue :: Ready(s, m, j)
  {
    var m :| m in s.queue && LiveFor(s, m, j);
    assert Ready(s, m, j);
  }

  // The publisher's passes leave a waiting job queued, with a message.
  lemma PublisherWakes(s: State, t: State, due: set<nat>, now: int, j: nat, e: nat)
    requires P.BatchProcessed(s, t, due, now) && P.AllPublished(t.events, due)
    requires e in due && Unpublished(s.events, e, j) && j in s.jobs && s.jobs[j].status in {Pending, Queued}
    requires NothingRuns(s.jobs)
    ensures j in t.jobs && t.jobs[j].status == Queued && NothingRuns(t.jobs) && P.HasMessage(t, j, e)
  {
    assert P.PublishedFor(s, t, due, j);
  }

  // A job that waits gets a message that can start it.
  method Wake(db: Cluster, me: nat, j: nat) returns (m: nat)
    requires db.Valid() && db.calm && db.brokerUp && db.sessions == map[]
    requires j in db.jobs && db.jobs[j].status in {Pending, Queued} && NothingRuns(db.jobs)
    requires AllDueBy(db.events, db.events.Keys, db.clock)
    modifies db
    ensures db.Valid() && old(db.run) <= db.run && db.sessions == map[]
    ensures j in db.jobs && db.jobs[j].status == Queued && NothingRuns(db.jobs) && Ready(db.Snapshot(), m, j)
  {
    hide IsRun, Next, Enabled, Apply, P.BatchProcessed, P.AllPublished;
    db.JobIsAwaited(j);
    if e :| e in db.events && Unpublished(db.events, e, j) {
      var publisher := new P.OutboxPublisher(db, 1);
      var passes := publisher.PublishUntilIdle(me);
      PublisherWakes(old(db.Snapshot()), db.Snapshot(), old(P.DueSet(db.events, db.clock)), old(db.clock), j, e);
      m :| m in db.queue && db.queue[m] == Message(j, e, None);
    } else {
      LiveMeansReady(db.Snapshot(), j);
      m :| m in db.queue && Ready(db.Snapshot(), m, j);
    }
  }

  // A worker completes a job that has a message, when nothing else runs.
  method Complete(db: Cluster, me: nat, m: nat, j: nat)
    requires db.Valid() && db.calm && db.sessions == map[] && db.config.maxRunningPerUser >= 1
    requires j in db.jobs && db.jobs[j].status == Queued && NothingRuns(db.jobs) && Ready(db.Snapshot(), m, j)
    modifies db
    ensures db.Valid() && old(db.run) <= db.run && j in db.jobs && db.jobs[j].status == Completed
  {
    hide IsRun, Next, Enabled, Apply;
    var worker := new W.JobWorker(db, "worker");
    assert RunningOf(db.jobs, db.jobs[j].owner) == {};
    ghost var execution := worker.HandleMessage(me, m, W.Succeed);
  }

  // Recover, publish, execute.
  method Finish(db: Cluster, me: nat, j: nat)
    requires db.Valid() && db.calm && db.brokerUp && db.sessions == map[] && db.config.maxRunningPerUser >= 1
    requires j in db.jobs && AfterAllLeases(db.jobs, db.jobs.Keys, db.clock)
    requires AllDueBy(db.events, db.events.Keys, db.clock)
    modifies db
    ensures db.Valid() && old(db.run) <= db.run && j in db.jobs && Terminal(db.jobs[j].status)
  {
    hide IsRun, Next, Enabled, Apply, AfterAllLeases, AllDueBy;
    StopAll(db, me);
    if !Terminal(db.jobs[j].status) {
      var m := Wake(db, me, j);
      Complete(db, me, m, j);
    }
  }

  /**
   Whatever a run has done so far, with however many crashes, lost commits and stale
   messages, it can be continued so that job `j` ends.
   */
  method EveryJobCanFinish(c: Config, s: State, ghost run: seq<State>, j: nat)
      returns (t: State, ghost longer: seq<State>)
    requires IsRun(c, run) && run[|run| - 1] == s && j in s.jobs && c.maxRunningPerUser >= 1
    ensures IsRun(c, longer) && run <= longer && longer[|longer| - 1] == t
    ensures j in t.jobs && Terminal(t.jobs[j].status)
  {
    hide Next, Enabled, Apply;
    var lease := LastLease(s.jobs);
    var due := LastDue(s.events);
    var late := Max(lease, due);
    var db := new Cluster.Resume(c, true, true, late, s, run);
    CrashAll(db);
    Finish(db, 0, j);
    t, longer := db.Snapshot(), db.run;
  }
}
