/** Why a column of a committed row has the value it has: cancellations and published events. */
module ProtocolHonesty {
  import opened Wrappers
  import opened JobState
  import opened Outbox
  import opened Protocol
  import opened ProtocolInvariant
  import opened ProtocolRuns

  /* ----- Cancellation requests ----- */

  // The session is about to commit a cancel through the API.
  ghost predicate CommitsApiCancel(s: State, t: State, j: nat) {
    exists a | a in s.sessions :: s.sessions[a].phase == CancelReady(j) && t == CommitSession(s, a)
  }

  lemma OnlyTheApiStagesARequest(c: Config, s: State, x: Session, j: nat)
    requires PhaseInv(c, s, x) && Committing(x.phase) && j in x.jobs && j in s.jobs
    ensures x.jobs[j].cancelRequestedAt != s.jobs[j].cancelRequestedAt ==> x.phase == CancelReady(j)
  {
    if x.phase.Recovering? {
      assert RecoveryStaged(s, x, x.phase.requeued, j);
    }
  }

  lemma OnlyTheApiRequestsCancellation(c: Config, s: State, t: State, j: nat)
    requires Inv(c, s) && Next(c, s, t) && j in s.jobs && j in t.jobs
    requires t.jobs[j].cancelRequestedAt != s.jobs[j].cancelRequestedAt
    ensures CommitsApiCancel(s, t, j)
  {
    var st :| Enabled(c, s, st) && t == Apply(c, s, st);
    if st.Commit? {
      var x := s.sessions[st.a];
      assert SessionInv(c, s, x);
      OnlyTheApiStagesARequest(c, s, x, j);
    } else if st.Create? {
      CreateMovesRows(s, st.owner, st.maxRetries, st.at);
    } else {
      OnlyCommitsWriteRows(c, s, st);
    }
  }

  lemma NewJobsHaveNoRequest(c: Config, s: State, t: State, j: nat)
    requires Inv(c, s) && Next(c, s, t) && j !in s.jobs && j in t.jobs
    ensures t.jobs[j].cancelRequestedAt == None
  {
    var st :| Enabled(c, s, st) && t == Apply(c, s, st);
    if st.Commit? {
      CommitMovesRows(c, s, st.a);
    } else if !st.Create? {
      OnlyCommitsWriteRows(c, s, st);
    }
  }

  lemma RequestsAppearByApiCancel(c: Config, s: State, t: State, j: nat)
    requires Inv(c, s) && Next(c, s, t) && j in t.jobs && t.jobs[j].cancelRequestedAt.Some?
    ensures (j in s.jobs && s.jobs[j].cancelRequestedAt.Some?) || CommitsApiCancel(s, t, j)
  {
    if j !in s.jobs {
      NewJobsHaveNoRequest(c, s, t, j);
    } else if s.jobs[j].cancelRequestedAt != t.jobs[j].cancelRequestedAt {
      OnlyTheApiRequestsCancellation(c, s, t, j);
    }
  }

  lemma {:induction false} RequestsWereMade(c: Config, run: seq<State>, i: nat, j: nat)
    requires IsRun(c, run) && i < |run| && j in run[i].jobs && run[i].jobs[j].cancelRequestedAt.Some?
    ensures exists k | 0 <= k < i :: CommitsApiCancel(run[k], run[k + 1], j)
  {
    var p := i - 1;
    ReachableKeepsInv(c, run, p);
    assert Next(c, run[p], run[p + 1]);
    RequestsAppearByApiCancel(c, run[p], run[i], j);
    if !CommitsApiCancel(run[p], run[p + 1], j) {
      RequestsWereMade(c, run, p, j);
    }
  }

  /**
   A running job ends cancelled only if a user asked for it earlier in the run.
   A handler that stops because its check saw another token cannot cancel the job.
   */
  lemma RunningJobsAreCancelledOnRequest(c: Config, run: seq<State>, i: nat, j: nat)
    requires IsRun(c, run) && i + 1 < |run| && j in run[i].jobs && j in run[i + 1].jobs
    requires run[i].jobs[j].status == Running && run[i + 1].jobs[j].status == Cancelled
    ensures exists k | 0 <= k < i :: CommitsApiCancel(run[k], run[k + 1], j)
  {
    ReachableKeepsInv(c, run, i);
    assert Next(c, run[i], run[i + 1]);
    StepMovesRows(c, run[i], run[i + 1]);
    RequestsWereMade(c, run, i, j);
  }

  /** A request, once made, is never taken back or moved. */
  lemma {:induction false} RequestsAreWriteOnce(c: Config, run: seq<State>, i: nat, k: nat, j: nat)
    requires IsRun(c, run) && i <= k < |run| && j in run[i].jobs && run[i].jobs[j].cancelRequestedAt.Some?
    ensures j in run[k].jobs && run[k].jobs[j].cancelRequestedAt == run[i].jobs[j].cancelRequestedAt
  {
    if i < k {
      RequestsAreWriteOnce(c, run, i, k - 1, j);
      ReachableKeepsInv(c, run, k - 1);
      assert Next(c, run[k - 1], run[k - 1 + 1]);
      StepMovesRows(c, run[k - 1], run[k]);
    }
  }

  /** The first start of a job stays its start, through every retry. */
  lemma {:induction false} StartsAreWriteOnce(c: Config, run: seq<State>, i: nat, k: nat, j: nat)
    requires IsRun(c, run) && i <= k < |run| && j in run[i].jobs && run[i].jobs[j].startedAt.Some?
    ensures j in run[k].jobs && run[k].jobs[j].startedAt == run[i].jobs[j].startedAt
  {
    if i < k {
      StartsAreWriteOnce(c, run, i, k - 1, j);
      ReachableKeepsInv(c, run, k - 1);
      assert Next(c, run[k - 1], run[k - 1 + 1]);
      StepMovesRows(c, run[k - 1], run[k]);
    }
  }

  /* ----- Published events ----- */

  // The publisher commits event `e` after the broker accepted its message.
  ghost predicate CommitsAccepted(s: State, t: State, e: nat) {
    exists a, m | a in s.sessions && m in s.queue ::
      && s.sessions[a].phase == PubReady(e, Some(m)) && t == CommitSession(s, a)
      && e in s.events && s.queue[m].event == e && s.queue[m].job == s.events[e].job && Live(s, m)
  }

  // The publisher commits event `e` after it saw, under the row lock, a job that needs no dispatch.
  ghost predicate CommitsDiscard(s: State, t: State, e: nat) {
    exists a | a in s.sessions ::
      && s.sessions[a].phase == PubReady(e, None) && t == CommitSession(s, a)
      && e in s.events && s.events[e].job in s.sessions[a].rows
      && (s.events[e].job in s.jobs ==> s.jobs[s.events[e].job].status !in {Pending, Queued})
  }

  lemma OnlyPublishersStampEvents(c: Config, s: State, x: Session, e: nat)
    requires PhaseInv(c, s, x) && Committing(x.phase) && e in x.events && e in s.events
    ensures x.phase.PubReady? && x.phase.e == e && s.events[e].publishedAt.None?
  {
  }

  lemma StampedEventsWereDealtWith(s: State, a: nat, e: nat)
    requires a in s.sessions && s.sessions[a].phase.PubReady? && s.sessions[a].phase.e == e
    requires PublisherInv(s, s.sessions[a])
    ensures match s.sessions[a].phase.accepted
            case Some(_) => CommitsAccepted(s, CommitSession(s, a), e)
            case None => CommitsDiscard(s, CommitSession(s, a), e)
  {
    var accepted := s.sessions[a].phase.accepted;
    if accepted.Some? {
      assert s.sessions[a].phase == PubReady(e, Some(accepted.value));
      assert SentFor(s, accepted.value, e);
    }
  }

  // What may happen to an outbox row: a failure counts and puts it off, and a publication is final.
  ghost predicate EventStep(before: Event, after: Event) {
    && after.job == before.job && after.payload == before.payload && after.createdAt == before.createdAt
    && before.publishAttempts <= after.publishAttempts
    && (after.publishAttempts == before.publishAttempts ==> after.availableAt == before.availableAt)
    && (before.publishedAt.Some? ==> after.publishedAt == before.publishedAt)
  }

  lemma OtherStepsMoveEvents(c: Config, s: State, st: Step, e: nat)
    requires EventsInv(s) && Enabled(c, s, st) && !st.Commit? && e in s.events
    ensures var t := Apply(c, s, st);
            e in t.events && EventStep(s.events[e], t.events[e]) && t.events[e].publishedAt == s.events[e].publishedAt
  {
  }

  /**
   Outbox honesty: an event becomes published only in a commit of its publisher,
   and only after the broker accepted a message for its job or the job was seen to
   need none.
   */
  lemma PublishedMeansDealtWith(c: Config, run: seq<State>, i: nat, e: nat)
    requires IsRun(c, run) && i + 1 < |run| && e in run[i].events && run[i].events[e].publishedAt.None?
    requires e in run[i + 1].events && run[i + 1].events[e].publishedAt.Some?
    ensures CommitsAccepted(run[i], run[i + 1], e) || CommitsDiscard(run[i], run[i + 1], e)
  {
    var s, t := run[i], run[i + 1];
    ReachableKeepsInv(c, run, i);
    assert Next(c, s, t);
    var st :| Enabled(c, s, st) && t == Apply(c, s, st);
    if st.Commit? {
      assert SessionInv(c, s, s.sessions[st.a]);
      OnlyPublishersStampEvents(c, s, s.sessions[st.a], e);
      assert PublisherInv(s, s.sessions[st.a]);
      StampedEventsWereDealtWith(s, st.a, e);
    } else {
      OtherStepsMoveEvents(c, s, st, e);
    }
  }

  lemma CommitMovesEvents(c: Config, s: State, a: nat, e: nat)
    requires a in s.sessions && PhaseInv(c, s, s.sessions[a]) && Committing(s.sessions[a].phase) && e in s.events
    ensures var t := CommitSession(s, a); e in t.events && EventStep(s.events[e], t.events[e])
  {
    if e in s.sessions[a].events {
      OnlyPublishersStampEvents(c, s, s.sessions[a], e);
    }
  }

  lemma StepMovesEvents(c: Config, s: State, t: State, e: nat)
    requires Inv(c, s) && Next(c, s, t) && e in s.events
    ensures e in t.events && EventStep(s.events[e], t.events[e])
  {
    hide Inv, PhaseInv;
    EventsAreSound(c, s);
    var st :| Enabled(c, s, st) && t == Apply(c, s, st);
    if st.Commit? {
      SessionIsSound(c, s, st.a);
      CommitMovesEvents(c, s, st.a, e);
    } else {
      OtherStepsMoveEvents(c, s, st, e);
    }
  }

  lemma EventsAreSound(c: Config, s: State)
    requires Inv(c, s)
    ensures EventsInv(s)
  {
  }

  lemma SessionIsSound(c: Config, s: State, a: nat)
    requires Inv(c, s) && a in s.sessions
    ensures PhaseInv(c, s, s.sessions[a])
  {
    assert SessionInv(c, s, s.sessions[a]);
  }

  /** An event names the same job for good, and is put off only by a failure that is counted. */
  lemma {:induction false} EventsMoveForward(c: Config, run: seq<State>, i: nat, k: nat, e: nat)
    requires IsRun(c, run) && i <= k < |run| && e in run[i].events
    ensures e in run[k].events && EventStep(run[i].events[e], run[k].events[e])
  {
    hide IsRun, Inv, Next;
    if i < k {
      EventsMoveForward(c, run, i, k - 1, e);
      RunStep(c, run, k - 1);
      StepMovesEvents(c, run[k - 1], run[k], e);
    }
  }

  /** An event is published at most once: the time of publication never changes. */
  lemma PublicationsAreWriteOnce(c: Config, run: seq<State>, i: nat, k: nat, e: nat)
    requires IsRun(c, run) && i <= k < |run| && e in run[i].events && run[i].events[e].publishedAt.Some?
    ensures e in run[k].events && run[k].events[e].publishedAt == run[i].events[e].publishedAt
  {
    EventsMoveForward(c, run, i, k, e);
  }

  lemma WhoMovesAPendingJob(c: Config, s: State, x: Session, j: nat)
    requires PhaseInv(c, s, x) && Committing(x.phase) && j in x.jobs && j in s.jobs
    ensures s.jobs[j].status == Pending ==>
              || x.phase == CancelReady(j)
              || (x.phase.PubReady? && x.phase.accepted.Some? && x.phase.e in s.events && s.events[x.phase.e].job == j)
  {
    if x.phase.Recovering? {
      assert RecoveryStaged(s, x, x.phase.requeued, j);
    }
  }

  /** A job leaves pending only through a cancel or after the broker accepted a message for it. */
  lemma PendingJobsLeaveHonestly(c: Config, run: seq<State>, i: nat, j: nat)
    requires IsRun(c, run) && i + 1 < |run| && j in run[i].jobs && j in run[i + 1].jobs
    requires run[i].jobs[j].status == Pending && run[i + 1].jobs[j].status != Pending
    ensures || CommitsApiCancel(run[i], run[i + 1], j)
            || exists e | e in run[i].events :: run[i].events[e].job == j && CommitsAccepted(run[i], run[i + 1], e)
  {
    var s, t := run[i], run[i + 1];
    ReachableKeepsInv(c, run, i);
    assert Next(c, s, t);
    var st :| Enabled(c, s, st) && t == Apply(c, s, st);
    if st.Commit? {
      var x := s.sessions[st.a];
      assert SessionInv(c, s, x);
      WhoMovesAPendingJob(c, s, x, j);
      if x.phase.PubReady? {
        assert PublisherInv(s, x);
        StampedEventsWereDealtWith(s, st.a, x.phase.e);
        assert CommitsAccepted(s, t, x.phase.e);
      }
    } else if st.Create? {
      CreateMovesRows(s, st.owner, st.maxRetries, st.at);
    } else {
      OnlyCommitsWriteRows(c, s, st);
    }
  }
}
