/** Recovery of running jobs whose lease is over: requeue them, or fail those without an attempt left. */
module StaleRunningRecovery {
  import opened Wrappers
  import opened JobState
  import opened JobRows
  import opened Outbox
  import opened Protocol
  import opened ProtocolInvariant
  import opened ProtocolRuns
  import opened Selection
  import opened Cluster

  // From the locked row `job` to `row`: requeued after as many attempts as it has retries and after three at most,
  // and failed otherwise.
  predicate Recovered(job: Job, row: Job, now: int) {
    var retried := job.attempts <= job.maxRetries && job.attempts <= 3;
    row == job.(status := if retried then Queued else Failed, worker := None, token := None, leaseExpiresAt := None,
                finishedAt := if retried then None else Some(now), updatedAt := now,
                lastError := Some(if retried then "Job recovered from stale running state and queued for retry"
                                  else "Job failed after stale running recovery exhausted retries"))
  }

  // Every row in `locked` was recovered, and every requeued one will be woken up.
  ghost predicate BatchRecovered(locked: map<nat, Job>, t: State, now: int) {
    forall j | j in locked ::
      && j in t.jobs && Recovered(locked[j], t.jobs[j], now)
      && (t.jobs[j].status == Queued ==> HasUnpublished(t.events, j))
  }

  // From `s` to `t`, the recovery changed nothing but these rows, and only added events that they lacked.
  ghost predicate OnlyRecovered(s: State, t: State, batch: set<nat>, now: int) {
    && t.queue == s.queue && t.jobs.Keys == s.jobs.Keys
    && (forall j | j in s.jobs && j !in batch :: t.jobs[j] == s.jobs[j])
    && (forall e | e in s.events :: e in t.events && t.events[e] == s.events[e])
    && (forall e | e in t.events && e !in s.events ::
          && t.events[e].job in batch && !HasUnpublished(s.events, t.events[e].job)
          && NewFor(t.events[e], t.events[e].job, now, 0))
  }

  /** The update that recovery chooses does what the policy on attempts asks for. */
  lemma RecoveryUpdateRecovers(job: Job, now: int)
    requires job.token.Some?
    ensures Recovered(job, Updated(job, RecoveryUpdate(job), now), now)
  {
  }

  // The session has locked the rows `locked`, and staged the recovery of those not in `todo`.
  ghost predicate Progress(s: State, me: nat, locked: map<nat, Job>, todo: set<nat>, requeued: Option<nat>, now: int) {
    && At(s, me, Recovering(todo, requeued, now))
    && var x := s.sessions[me];
       && x.rows == locked.Keys && todo <= locked.Keys && x.jobs.Keys == locked.Keys - todo
       && (forall j | j in locked :: j in s.jobs && s.jobs[j] == locked[j])
       && (forall j | j in x.jobs :: Recovered(locked[j], x.jobs[j], now))
       && (forall e | e in x.events :: NewFor(x.events[e], x.events[e].job, now, 0))
  }

  function RowsOf(jobs: map<nat, Job>, ids: set<nat>): map<nat, Job> {
    map j | j in ids && j in jobs :: jobs[j]
  }

  // The rows come in the order of their leases, creations and ids.
  ghost predicate InLeaseOrder(locked: map<nat, Job>, claimed: seq<nat>) {
    && (forall j | j in claimed :: j in locked)
    && forall i, k :: 0 <= i < k < |claimed| ==>
         AtMost(LeaseKey(locked[claimed[i]], claimed[i]), LeaseKey(locked[claimed[k]], claimed[k]))
  }

  lemma BatchIsInTable(s: State, me: nat, now: int, limit: nat, claimed: seq<nat>)
    requires IsFirst(ExpiredKeys(s, me, now), limit, claimed)
    ensures Distinct(claimed) && Elements(claimed) <= s.jobs.Keys
    ensures InLeaseOrder(RowsOf(s.jobs, Elements(claimed)), claimed)
  {
    var keys := ExpiredKeys(s, me, now);
    assert forall j | j in claimed :: j in keys && keys[j] == LeaseKey(s.jobs[j], j);
  }

  // The loop over the batch takes the rows in their order.
  lemma HeadIsNext(s: State, me: nat, locked: map<nat, Job>, claimed: seq<nat>, i: nat, now: int)
    requires i < |claimed| && InLeaseOrder(locked, claimed)
    requires Progress(s, me, locked, Elements(claimed[i..]), None, now)
    ensures NextToRecover(s, Elements(claimed[i..]), claimed[i])
  {
    var todo := Elements(claimed[i..]);
    assert claimed[i] == claimed[i..][0];
    forall k | k in todo ensures AtMost(LeaseKey(s.jobs[claimed[i]], claimed[i]), LeaseKey(s.jobs[k], k)) {
      var n :| 0 <= n < |claimed[i..]| && claimed[i..][n] == k;
      assert claimed[i + n] == k;
    }
  }

  lemma NothingRecovered(locked: map<nat, Job>, s: State, t: State, batch: seq<nat>, now: int)
    requires batch == [] && locked == RowsOf(s.jobs, Elements(batch))
    ensures BatchRecovered(locked, t, now)
    ensures t.jobs == s.jobs && t.events == s.events && t.queue == s.queue ==> OnlyRecovered(s, t, Elements(batch), now)
  {
  }

  // A requeued job gets an event with the commit, unless it has one.
  lemma RequeuedIsWoken(s: State, me: nat, j: nat, now: int)
    requires At(s, me, Recovering({}, None, now)) && RecoveryInv(s, s.sessions[me], {}, None, now)
    requires j in s.sessions[me].jobs && s.sessions[me].jobs[j].status == Queued
    ensures HasUnpublished(CommitSession(s, me).events, j)
  {
    var x, t := s.sessions[me], CommitSession(s, me);
    assert RecoveryStaged(s, x, None, j) && Woken(s, x, j);
    if HasUnpublished(x.events, j) {
      var e :| e in x.events && Unpublished(x.events, e, j);
      assert Unpublished(t.events, e, j);
    } else {
      var e :| e in s.events && Unpublished(s.events, e, j);
      assert Unpublished(t.events, e, j);
    }
  }

  /** What the session has staged in the end is what the batch calls for. */
  lemma CommitRecovers(c: Config, s: State, me: nat, locked: map<nat, Job>, now: int)
    requires Progress(s, me, locked, {}, None, now)
    requires RecoveryInv(s, s.sessions[me], {}, None, now)
    ensures BatchRecovered(locked, CommitSession(s, me), now)
    ensures OnlyRecovered(s, CommitSession(s, me), locked.Keys, now)
  {
    hide HasUnpublished, RecoveryStaged, Recovered;
    var t := CommitSession(s, me);
    forall j | j in locked && t.jobs[j].status == Queued ensures HasUnpublished(t.events, j) {
      RequeuedIsWoken(s, me, j, now);
    }
  }

  /* ----- Repeated batches ----- */

  function ExpiredSet(jobs: map<nat, Job>, now: int): set<nat> {
    set j | j in jobs && Expired(jobs[j], now)
  }

  // Since `start`, these rows were recovered and the rest of the expired ones is still expired.
  ghost predicate PartlyRecovered(start: State, s: State, expired: set<nat>, done: set<nat>, now: int) {
    && s.sessions.Keys == {} && done <= expired && ExpiredSet(s.jobs, now) == expired - done
    && done <= start.jobs.Keys
    && BatchRecovered(RowsOf(start.jobs, done), s, now) && OnlyRecovered(start, s, done, now)
  }

  lemma BatchIsExpired(s: State, me: nat, now: int, limit: nat, claimed: seq<nat>)
    requires s.sessions.Keys == {} && IsFirst(ExpiredKeys(s, me, now), limit, claimed)
    ensures Elements(claimed) <= ExpiredSet(s.jobs, now)
    ensures |claimed| == Min(limit, |ExpiredSet(s.jobs, now)|) && |Elements(claimed)| == |claimed|
  {
    assert ExpiredKeys(s, me, now).Keys == ExpiredSet(s.jobs, now);
    DistinctElements(claimed);
  }

  /** A recovered row is not expired any more, so a batch takes exactly its rows out. */
  lemma RecoveryShrinksTheExpiredSet(s: State, t: State, batch: set<nat>, now: int)
    requires batch <= ExpiredSet(s.jobs, now)
    requires BatchRecovered(RowsOf(s.jobs, batch), t, now) && OnlyRecovered(s, t, batch, now)
    ensures ExpiredSet(t.jobs, now) == ExpiredSet(s.jobs, now) - batch
  {
    forall j | j in batch ensures j !in ExpiredSet(t.jobs, now) {
      assert j in RowsOf(s.jobs, batch);
    }
  }

  lemma RecoveriesCompose(s: State, mid: State, t: State, first: set<nat>, second: set<nat>, now: int)
    requires first <= s.jobs.Keys && second <= mid.jobs.Keys && first !! second
    requires BatchRecovered(RowsOf(s.jobs, first), mid, now) && OnlyRecovered(s, mid, first, now)
    requires BatchRecovered(RowsOf(mid.jobs, second), t, now) && OnlyRecovered(mid, t, second, now)
    ensures BatchRecovered(RowsOf(s.jobs, first + second), t, now) && OnlyRecovered(s, t, first + second, now)
  {
    forall j | j in first ensures t.jobs[j] == mid.jobs[j] && j in RowsOf(s.jobs, first) {
    }
    forall j | HasUnpublished(mid.events, j) ensures HasUnpublished(t.events, j) {
      var e :| e in mid.events && Unpublished(mid.events, e, j);
      assert Unpublished(t.events, e, j);
    }
    forall j | HasUnpublished(s.events, j) ensures HasUnpublished(mid.events, j) {
      var e :| e in s.events && Unpublished(s.events, e, j);
      assert Unpublished(mid.events, e, j);
    }
    forall j | j in second ensures mid.jobs[j] == s.jobs[j] && j in RowsOf(mid.jobs, second) {
    }
  }

  lemma BatchSets(start: State, s: State, t: State, expired: set<nat>, done: set<nat>, batch: set<nat>, now: int)
    requires PartlyRecovered(start, s, expired, done, now) && t.sessions.Keys == {}
    requires batch <= ExpiredSet(s.jobs, now)
    requires BatchRecovered(RowsOf(s.jobs, batch), t, now) && OnlyRecovered(s, t, batch, now)
    ensures PartlyRecovered(start, t, expired, done + batch, now)
    ensures |expired - (done + batch)| == |expired - done| - |batch|
    ensures ExpiredSet(s.jobs, now) == expired - done
  {
    hide BatchRecovered, OnlyRecovered, RowsOf, ExpiredSet;
    RecoveryShrinksTheExpiredSet(s, t, batch, now);
    ExpiredAreRows(s, now);
    SameRows(start, s, done, now);
    RecoveriesCompose(start, s, t, done, batch, now);
    DoneIsLess(expired, done, batch);
  }

  lemma DoneIsLess(expired: set<nat>, done: set<nat>, batch: set<nat>)
    requires done <= expired && batch <= expired - done
    ensures expired - (done + batch) == expired - done - batch
    ensures |expired - (done + batch)| == |expired - done| - |batch|
  {
    assert expired - (done + batch) == expired - done - batch;
  }

  lemma SameRows(start: State, s: State, done: set<nat>, now: int)
    requires OnlyRecovered(start, s, done, now)
    ensures s.jobs.Keys == start.jobs.Keys
  {
  }

  lemma NobodyElse(start: State, s: State, expired: set<nat>, done: set<nat>, now: int)
    requires PartlyRecovered(start, s, expired, done, now)
    ensures s.sessions.Keys == {} && ExpiredSet(s.jobs, now) == expired - done
  {
  }

  lemma OneBatch(start: State, s: State, t: State, expired: set<nat>, done: set<nat>, me: nat, now: int, limit: nat,
                 claimed: seq<nat>)
    requires limit >= 1 && PartlyRecovered(start, s, expired, done, now) && t.sessions.Keys == {}
    requires IsFirst(ExpiredKeys(s, me, now), limit, claimed)
    requires BatchRecovered(RowsOf(s.jobs, Elements(claimed)), t, now) && OnlyRecovered(s, t, Elements(claimed), now)
    ensures PartlyRecovered(start, t, expired, done + Elements(claimed), now)
    ensures PassesFor(|expired - done|, limit)
            == PassesFor(|expired - (done + Elements(claimed))|, limit) + if |claimed| == 0 then 0 else 1
    ensures |claimed| == 0 ==> |expired - done| == 0
    ensures |claimed| > 0 ==> |expired - (done + Elements(claimed))| < |expired - done|
  {
    hide IsFirst, ExpiredKeys, BatchRecovered, OnlyRecovered, Elements, RowsOf, PassesFor, ExpiredSet, PartlyRecovered;
    NobodyElse(start, s, expired, done, now);
    BatchIsExpired(s, me, now, limit, claimed);
    BatchSets(start, s, t, expired, done, Elements(claimed), now);
    PassesStep(|expired - done|, limit);
  }

  lemma ExpiredAreRows(s: State, now: int)
    ensures ExpiredSet(s.jobs, now) <= s.jobs.Keys
  {
  }

  lemma NoneRecovered(s: State, expired: set<nat>, now: int)
    requires expired == ExpiredSet(s.jobs, now) && s.sessions == map[]
    ensures PartlyRecovered(s, s, expired, {}, now) && expired - {} == expired
  {
  }

  lemma AllRecovered(start: State, s: State, expired: set<nat>, done: set<nat>, now: int, batchSize: nat)
    requires PartlyRecovered(start, s, expired, done, now) && batchSize >= 1 && |expired - done| == 0
    ensures ExpiredSet(s.jobs, now) == {} && PassesFor(|expired - done|, batchSize) == 0
    ensures BatchRecovered(RowsOf(start.jobs, expired), s, now) && OnlyRecovered(start, s, expired, now)
  {
    hide BatchRecovered, OnlyRecovered, RowsOf;
    assert expired - done == {};
    assert expired == done;
  }

  lemma NoLeaseIsOver(jobs: map<nat, Job>, now: int)
    requires ExpiredSet(jobs, now) == {} && forall j | j in jobs :: RowOk(jobs[j])
    ensures forall j | j in jobs && jobs[j].status == Running ::
              jobs[j].leaseExpiresAt.Some? && jobs[j].leaseExpiresAt.value >= now
  {
    forall j | j in jobs && jobs[j].status == Running
      ensures jobs[j].leaseExpiresAt.Some? && jobs[j].leaseExpiresAt.value >= now
    {
      assert j !in ExpiredSet(jobs, now);
    }
  }

  class StaleRunningRecovery {
    const db: Cluster
    const batchSize: nat

    constructor (db: Cluster, batchSize: nat)
      ensures this.db == db && this.batchSize == batchSize
    {
      this.db, this.batchSize := db, batchSize;
    }

    // Other sessions run; the row locks keep what was locked and staged.
    method Pause(me: nat, ghost locked: map<nat, Job>, todo: set<nat>, requeued: Option<nat>, now: int)
      requires db.Valid() && Progress(db.Snapshot(), me, locked, todo, requeued, now)
      modifies db
      ensures db.Valid() && old(db.run) <= db.run && Progress(db.Snapshot(), me, locked, todo, requeued, now)
      ensures old(db.Alone(me)) ==> db.Alone(me) && db.SameTables(old(db.Snapshot()))
    {
      hide IsRun, Next, Enabled, Apply, Recovered;
      db.Yield(me);
    }

    method UpdateStaleRow(me: nat, ghost locked: map<nat, Job>, todo: set<nat>, j: nat, now: int)
        returns (alive: bool, requeued: bool)
      requires db.Valid() && Progress(db.Snapshot(), me, locked, todo, None, now)
      requires NextToRecover(db.Snapshot(), todo, j)
      modifies db
      ensures db.Valid() && old(db.run) <= db.run
      ensures if alive then Progress(db.Snapshot(), me, locked, todo - {j}, if requeued then Some(j) else None, now)
              else me !in db.sessions
      ensures old(db.Alone(me)) ==> alive && db.Alone(me) && db.SameTables(old(db.Snapshot()))
    {
      hide IsRun, Next, Enabled, Apply, Recovered, Updated;
      requeued := false;
      alive := db.RecoverRow(me, todo, j, now);
      if alive {
        requeued := RecoveryUpdate(db.jobs[j]).RequeueRunning?;
        RecoveryUpdateRecovers(db.jobs[j], now);
        Pause(me, locked, todo - {j}, if requeued then Some(j) else None, now);
      }
    }

    method AddRecoveryEvent(me: nat, ghost locked: map<nat, Job>, todo: set<nat>, j: nat, now: int)
      requires db.Valid() && Progress(db.Snapshot(), me, locked, todo, Some(j), now)
      modifies db
      ensures db.Valid() && old(db.run) <= db.run && Progress(db.Snapshot(), me, locked, todo, None, now)
      ensures old(db.Alone(me)) ==> db.Alone(me) && db.SameTables(old(db.Snapshot()))
    {
      hide IsRun, Next, Enabled, Apply, Recovered;
      db.CreateRecoveryEvent(me, todo, j, now);
      Pause(me, locked, todo, None, now);
    }

    // Recovers one of the locked rows; other sessions may run between its statements.
    method RecoverStaleJob(me: nat, ghost locked: map<nat, Job>, todo: set<nat>, j: nat, now: int) returns (alive: bool)
      requires db.Valid() && Progress(db.Snapshot(), me, locked, todo, None, now)
      requires NextToRecover(db.Snapshot(), todo, j)
      modifies db
      ensures db.Valid() && old(db.run) <= db.run
      ensures if alive then Progress(db.Snapshot(), me, locked, todo - {j}, None, now) else me !in db.sessions
      ensures old(db.Alone(me)) ==> alive && db.Alone(me) && db.SameTables(old(db.Snapshot()))
    {
      hide IsRun, Next, Enabled, Apply, Progress;
      var requeued;
      alive, requeued := UpdateStaleRow(me, locked, todo, j, now);
      if alive && requeued {
        AddRecoveryEvent(me, locked, todo - {j}, j, now);
      }
    }

    // The loop over the locked rows, and the commit.
    method RecoverLocked(me: nat, claimed: seq<nat>, ghost locked: map<nat, Job>, now: int) returns (alive: bool)
      requires db.Valid() && Distinct(claimed) && Progress(db.Snapshot(), me, locked, Elements(claimed), None, now)
      requires locked.Keys == Elements(claimed) && InLeaseOrder(locked, claimed)
      modifies db
      ensures db.Valid() && old(db.run) <= db.run && me !in db.sessions
      ensures alive ==> BatchRecovered(locked, db.Snapshot(), now)
      ensures old(db.Alone(me)) ==>
                alive && db.sessions.Keys == {} && OnlyRecovered(old(db.Snapshot()), db.Snapshot(), locked.Keys, now)
    {
      hide IsRun, Next, Enabled, Apply, Progress, BatchRecovered, InLeaseOrder, NextToRecover;
      var todo := Elements(claimed);
      alive := true;
      for i := 0 to |claimed|
        invariant db.Valid() && old(db.run) <= db.run && Progress(db.Snapshot(), me, locked, todo, None, now)
        invariant todo == Elements(claimed[i..])
        invariant old(db.Alone(me)) ==> alive && db.Alone(me) && db.SameTables(old(db.Snapshot()))
      {
        assert claimed[i..] == [claimed[i]] + claimed[i + 1..];
        HeadIsNext(db.Snapshot(), me, locked, claimed, i, now);
        alive := RecoverStaleJob(me, locked, todo, claimed[i], now);
        if !alive {
          return;
        }
        todo := todo - {claimed[i]};
      }
      assert todo == {};
      alive := CommitRecovery(me, locked, now);
    }

    method CommitRecovery(me: nat, ghost locked: map<nat, Job>, now: int) returns (alive: bool)
      requires db.Valid() && Progress(db.Snapshot(), me, locked, {}, None, now)
      modifies db
      ensures db.Valid() && old(db.run) <= db.run && me !in db.sessions
      ensures alive ==> BatchRecovered(locked, db.Snapshot(), now)
      ensures alive ==> OnlyRecovered(old(db.Snapshot()), db.Snapshot(), locked.Keys, now)
      ensures old(db.Alone(me)) ==> alive && db.sessions.Keys == {}
    {
      hide IsRun, Next, Enabled, Apply, BatchRecovered, OnlyRecovered;
      db.MySession(me);
      CommitRecovers(db.config, db.Snapshot(), me, locked, now);
      alive := db.Commit(me);
    }

    /**
     One batch.  The rows it takes are the first expired ones that nobody else has
     locked; whatever runs in between, a commit recovers each of them, and a batch
     that is alone touches no other job.
     */
    method RecoverDueBatchOnce(me: nat) returns (alive: bool, recoveredCount: nat, ghost claimed: seq<nat>)
      requires db.Valid() && me !in db.sessions
      modifies db
      ensures db.Valid() && old(db.run) <= db.run && me !in db.sessions
      ensures alive ==> FirstExpired(old(db.Snapshot()), old(db.clock), batchSize, claimed)
      ensures alive ==>
                && IsFirst(ExpiredKeys(old(db.Snapshot()), me, old(db.clock)), batchSize, claimed)
                && recoveredCount == |claimed|
                && BatchRecovered(RowsOf(old(db.jobs), Elements(claimed)), db.Snapshot(), old(db.clock))
      ensures old(db.calm && db.sessions == map[]) ==>
                && alive && db.sessions.Keys == {}
                && OnlyRecovered(old(db.Snapshot()), db.Snapshot(), Elements(claimed), old(db.clock))
    {
      hide IsRun, Next, Enabled, Apply, BatchRecovered, IsFirst, Progress, RowsOf, ExpiredKeys, Elements, InLeaseOrder;
      hide FirstExpired;
      alive, recoveredCount, claimed := false, 0, [];
      var now := db.clock;
      var batch := LockBatch(me, now);
      if batch.Some? {
        claimed := batch.value;
        ghost var locked := RowsOf(old(db.jobs), Elements(claimed));
        alive := true;
        if |batch.value| == 0 {
          db.Close(me);
          NothingRecovered(locked, old(db.Snapshot()), db.Snapshot(), claimed, now);
        } else {
          alive := RecoverLocked(me, batch.value, locked, now);
          recoveredCount := |batch.value|;
        }
      }
    }

    method LockBatch(me: nat, now: int) returns (batch: Option<seq<nat>>)
      requires db.Valid() && me !in db.sessions
      modifies db
      ensures db.Valid() && old(db.run) <= db.run
      ensures batch == None ==> me !in db.sessions
      ensures batch.Some? ==>
                var locked := RowsOf(old(db.jobs), Elements(batch.value));
                && IsFirst(ExpiredKeys(old(db.Snapshot()), me, now), batchSize, batch.value)
                && FirstExpired(old(db.Snapshot()), now, batchSize, batch.value)
                && Distinct(batch.value) && locked.Keys == Elements(batch.value) && InLeaseOrder(locked, batch.value)
                && Progress(db.Snapshot(), me, locked, Elements(batch.value), None, now)
                && me in db.sessions && MessageOf(db.sessions[me].phase) == None
      ensures old(db.calm && db.sessions == map[]) ==> batch.Some? && db.Alone(me) && db.SameTables(old(db.Snapshot()))
    {
      hide IsRun, Next, Enabled, Apply, Recovered, IsFirst, InLeaseOrder, FirstExpired;
      batch := db.LockExpired(me, now, batchSize);
      if batch.Some? {
        BatchIsInTable(old(db.Snapshot()), me, now, batchSize, batch.value);
        Pause(me, RowsOf(old(db.jobs), Elements(batch.value)), Elements(batch.value), None, now);
      }
    }

    /**
     Repeated batches, up to the first idle one.  Alone at a fixed clock they end
     after the expired rows divided by the batch size, rounded up, and by then every
     expired row was recovered, and nothing else was touched.
     */
    method RecoverUntilIdle(me: nat) returns (batches: nat)
      requires db.Valid() && db.calm && db.sessions == map[] && batchSize >= 1
      modifies db
      ensures db.Valid() && old(db.run) <= db.run && db.sessions.Keys == {}
      ensures forall j | j in db.jobs && db.jobs[j].status == Running ::
                db.jobs[j].leaseExpiresAt.Some? && db.jobs[j].leaseExpiresAt.value >= old(db.clock)
      ensures batches == PassesFor(|old(ExpiredSet(db.jobs, db.clock))|, batchSize)
      ensures var expired := old(ExpiredSet(db.jobs, db.clock));
              && BatchRecovered(RowsOf(old(db.jobs), expired), db.Snapshot(), old(db.clock))
              && OnlyRecovered(old(db.Snapshot()), db.Snapshot(), expired, old(db.clock))
    {
      hide IsRun, Next, Enabled, Apply, PartlyRecovered, PassesFor, BatchRecovered, OnlyRecovered, IsFirst;
      hide ExpiredSet, ExpiredKeys, RowsOf, Elements;
      ghost var start, now, expired := db.Snapshot(), db.clock, ExpiredSet(db.jobs, db.clock);
      ghost var done: set<nat> := {};
      NoneRecovered(start, expired, now);
      batches := 0;
      var recovered := 1;
      while recovered != 0
        invariant db.Valid() && old(db.run) <= db.run && db.sessions.Keys == {}
        invariant PartlyRecovered(start, db.Snapshot(), expired, done, now)
        invariant recovered == 0 ==> |expired - done| == 0
        invariant batches + PassesFor(|expired - done|, batchSize) == PassesFor(|expired|, batchSize)
        decreases |expired - done|, recovered
      {
        ghost var before := db.Snapshot();
        ghost var claimed;
        var alive;
        assert db.sessions == map[];
        alive, recovered, claimed := RecoverDueBatchOnce(me);
        OneBatch(start, before, db.Snapshot(), expired, done, me, now, batchSize, claimed);
        done := done + Elements(claimed);
        if recovered != 0 {
          batches := batches + 1;
        }
      }
      AllRecovered(start, db.Snapshot(), expired, done, now, batchSize);
      db.RowFacts();
      NoLeaseIsOver(db.jobs, now);
    }
  }
}
