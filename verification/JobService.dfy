/** The API's cancel: what a user may ask for, in each state of the job. */
module JobService {
  import opened Wrappers
  import opened JobState
  import opened JobRows
  import opened Protocol
  import opened ProtocolInvariant
  import opened ProtocolRuns
  import opened ProtocolHonesty
  import opened Cluster

  datatype User = User(id: nat, admin: bool)

  // The answer to a request; `Unavailable` when the database refused a statement.
  datatype CancelResult = Accepted(job: Job) | NotFound | NotCancellable | Unavailable

  predicate MayCancel(jobs: map<nat, Job>, user: User, j: nat) {
    j in jobs && (user.admin || jobs[j].owner == user.id)
  }

  // The row after an undisturbed request: cancelled before it ran, asked to stop, or as it was.
  function AfterCancel(job: Job, now: int): Job {
    match job.status
    case Pending => job.(status := Cancelled, worker := None, token := None, leaseExpiresAt := None,
                         finishedAt := Some(now), updatedAt := now)
    case Queued => job.(status := Cancelled, worker := None, token := None, leaseExpiresAt := None,
                        finishedAt := Some(now), updatedAt := now)
    case Running => if job.cancelRequestedAt.Some? then job else job.(cancelRequestedAt := Some(now), updatedAt := now)
    case _ => job
  }

  /** The update that the service chooses does what the job's state calls for; without one, nothing is left to do. */
  lemma CancelUpdateCancels(job: Job, now: int)
    requires WellShaped(job)
    ensures AfterCancel(job, now) == if CancelUpdate(job).Some? then Updated(job, CancelUpdate(job).value, now) else job
  {
  }

  lemma NobodyStagesAnEndedRow(c: Config, s: State, x: Session, j: nat)
    requires PhaseInv(c, s, x) && j in s.jobs && Terminal(s.jobs[j].status)
    ensures j !in x.jobs
  {
    hide NewEvents, Woken, StampStaged, SentFor, RunningOf, Updated;
    if x.phase.Recovering? {
      assert forall k | k in x.jobs :: RecoveryStaged(s, x, x.phase.requeued, k);
    }
  }

  lemma StepKeepsEndedRows(c: Config, s: State, st: Step, j: nat)
    requires Inv(c, s) && Enabled(c, s, st) && j in s.jobs && Terminal(s.jobs[j].status)
    ensures j in Apply(c, s, st).jobs && Apply(c, s, st).jobs[j] == s.jobs[j]
  {
    if st.Commit? {
      assert SessionInv(c, s, s.sessions[st.a]);
      NobodyStagesAnEndedRow(c, s, s.sessions[st.a], j);
    } else if st.Create? {
      CreateMovesRows(s, st.owner, st.maxRetries, st.at);
    } else {
      OnlyCommitsWriteRows(c, s, st);
    }
  }

  lemma NextKeepsEndedRows(c: Config, s: State, t: State, j: nat)
    requires Inv(c, s) && Next(c, s, t) && j in s.jobs && Terminal(s.jobs[j].status)
    ensures j in t.jobs && t.jobs[j] == s.jobs[j]
  {
    var st :| Enabled(c, s, st) && t == Apply(c, s, st);
    StepKeepsEndedRows(c, s, st, j);
  }

  /** The row of a job that ended never changes again, in any column. */
  lemma {:induction false} EndsAreFinal(c: Config, run: seq<State>, i: nat, k: nat, j: nat)
    requires IsRun(c, run) && i <= k < |run| && j in run[i].jobs && Terminal(run[i].jobs[j].status)
    ensures j in run[k].jobs && run[k].jobs[j] == run[i].jobs[j]
  {
    if i < k {
      EndsAreFinal(c, run, i, k - 1, j);
      ReachableKeepsInv(c, run, k - 1);
      assert Next(c, run[k - 1], run[k - 1 + 1]);
      NextKeepsEndedRows(c, run[k - 1], run[k], j);
    }
  }

  // The job is cancelled, or somebody asked for it.
  predicate Stopping(job: Job) {
    job.status == Cancelled || job.cancelRequestedAt.Some?
  }

  /** Nothing that happens later takes a cancellation back. */
  lemma StoppingIsForGood(c: Config, run: seq<State>, i: nat, k: nat, j: nat)
    requires IsRun(c, run) && i <= k < |run| && j in run[i].jobs && Stopping(run[i].jobs[j])
    ensures j in run[k].jobs && Stopping(run[k].jobs[j])
  {
    if run[i].jobs[j].cancelRequestedAt.Some? {
      RequestsAreWriteOnce(c, run, i, k, j);
    } else {
      EndsAreFinal(c, run, i, k, j);
    }
  }

  class JobService {
    const db: Cluster

    constructor (db: Cluster)
      ensures this.db == db
    {
      this.db := db;
    }

    // Reads the row again after the commit, when others may have changed it.
    method Refresh(me: nat, j: nat) returns (result: CancelResult)
      requires db.Valid() && j in db.jobs && Stopping(db.jobs[j])
      modifies db
      ensures db.Valid() && old(db.run) <= db.run && j in db.jobs
      ensures result == Accepted(db.jobs[j]) && Stopping(result.job)
      ensures me in db.sessions <==> me in old(db.sessions)
      ensures db.calm ==> db.Snapshot() == old(db.Snapshot())
    {
      db.Yield(me);
      StoppingIsForGood(db.config, db.run, |old(db.run)| - 1, |db.run| - 1, j);
      result := Accepted(db.jobs[j]);
    }

    lemma RowIsShaped(j: nat)
      requires db.Valid() && j in db.jobs
      ensures WellShaped(db.jobs[j])
    {
      db.RowFacts();
    }

    method WriteAndCommit(me: nat, j: nat, now: int) returns (alive: bool)
      requires db.Valid() && At(db.Snapshot(), me, Phase.CancelJob(j)) && db.sessions[me].rows == {j}
      requires j in db.jobs && CancelUpdate(db.jobs[j]).Some?
      modifies db
      ensures db.Valid() && old(db.run) <= db.run && me !in db.sessions && j in old(db.jobs)
      ensures alive ==> j in db.jobs && db.jobs[j] == AfterCancel(old(db.jobs)[j], now)
      ensures db.calm ==>
                && alive && db.jobs == old(db.jobs)[j := AfterCancel(old(db.jobs)[j], now)]
                && db.events == old(db.events) && db.queue == old(db.queue)
                && db.sessions.Keys == old(db.sessions.Keys) - {me}
    {
      hide IsRun, Next, Enabled, Apply, AfterCancel, CancelUpdate, Updated, RowOk;
      RowIsShaped(j);
      MergeOne(db.jobs, j, AfterCancel(db.jobs[j], now));
      CancelUpdateCancels(db.jobs[j], now);
      db.WriteCancel(me, j, now);
      db.Yield(me);
      alive := db.Commit(me);
    }

    // With the row locked: cancel, request, refuse, or leave as it is.
    method CancelLocked(me: nat, j: nat, now: int) returns (result: CancelResult)
      requires db.Valid() && At(db.Snapshot(), me, Phase.CancelJob(j)) && db.sessions[me].rows == {j} && j in db.jobs
      modifies db
      ensures db.Valid() && old(db.run) <= db.run && me !in db.sessions && j in old(db.jobs)
      ensures result == NotCancellable ==> j in db.jobs && db.jobs[j].status in {Completed, Failed}
      ensures result.Accepted? ==> j in db.jobs && result.job == db.jobs[j] && Stopping(result.job)
      ensures result != NotFound
      ensures db.calm && old(db.sessions.Keys) == {me} ==>
                && db.sessions.Keys == {} && db.events == old(db.events) && db.queue == old(db.queue)
                && db.jobs == old(db.jobs)[j := AfterCancel(old(db.jobs)[j], now)]
                && result == if old(db.jobs)[j].status in {Completed, Failed} then NotCancellable
                             else Accepted(db.jobs[j])
    {
      hide IsRun, Next, Enabled, Apply;
      db.RowFacts();
      var job := db.jobs[j];
      if CancelUpdate(job).Some? {
        var alive := WriteAndCommit(me, j, now);
        if alive {
          result := Refresh(me, j);
        } else {
          result := Unavailable;
        }
      } else {
        result := if job.status in {Completed, Failed} then NotCancellable else Accepted(job);
        db.Close(me);
        assert db.jobs == db.jobs[j := AfterCancel(job, now)];
      }
    }

    /**
     Cancels a job before it runs, or asks a running one to stop.  Under any
     interference the answer is true of the row: accepted means that the job is
     cancelled or asked to stop, and refused that it has ended otherwise.  Without
     interference the row is `AfterCancel`, and nothing else has changed.
     */
    method CancelJob(me: nat, user: User, j: nat) returns (result: CancelResult)
      requires db.Valid() && me !in db.sessions
      modifies db
      ensures db.Valid() && old(db.run) <= db.run && me !in db.sessions
      ensures result == NotFound <==> j !in old(db.jobs) || !(user.admin || old(db.jobs)[j].owner == user.id)
      ensures result == NotCancellable ==> j in db.jobs && db.jobs[j].status in {Completed, Failed}
      ensures result.Accepted? ==> j in db.jobs && result.job == db.jobs[j] && Stopping(result.job)
      ensures db.calm && old(db.sessions) == map[] && MayCancel(old(db.jobs), user, j) ==>
                && db.sessions.Keys == {} && db.events == old(db.events) && db.queue == old(db.queue)
                && db.jobs == old(db.jobs)[j := AfterCancel(old(db.jobs)[j], old(db.clock))]
                && result == if old(db.jobs)[j].status in {Completed, Failed} then NotCancellable
                             else Accepted(db.jobs[j])
    {
      hide IsRun, Next, Enabled, Apply;
      var now := db.clock;
      if !MayCancel(db.jobs, user, j) {
        return NotFound;
      }
      var locked := db.LockForCancel(me, j);
      if !locked {
        return Unavailable;
      }
      db.Yield(me);
      result := CancelLocked(me, j, now);
    }
  }
}
