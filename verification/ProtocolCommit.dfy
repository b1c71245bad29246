/** Committing a session keeps the invariant. */
module ProtocolCommit {
  import opened Wrappers
  import opened JobState
  import opened JobRows
  import opened Outbox
  import opened Protocol
  import opened ProtocolInvariant
  import opened ProtocolSteps
  import opened ProtocolShared

  /* ----- What a session that is ready to commit has staged ----- */

  ghost predicate StagedRow(s: State, x: Session, j: nat)
    requires j in x.jobs
  {
    && j in x.rows && j in s.jobs && RowStep(s.jobs[j], x.jobs[j])
    && (x.jobs[j].status == Running && s.jobs[j].status != Running ==>
          && x.phase.ClaimReady? && x.phase.granted.Some? && x.phase.granted.value.job == j
          && x.jobs[j].token == Some(x.phase.granted.value.token))
  }

  ghost predicate StagedEvent(s: State, x: Session, e: nat)
    requires e in x.events
  {
    var event := x.events[e];
    && e < s.nextId && event.job in x.rows && event.job in s.jobs && event.payload == Dispatch(e, event.job)
    && (e in s.events ==> e in x.evs && s.events[e].job == event.job && event.publishedAt.Some?)
    && (e !in s.events ==> event.publishedAt.None? && !HasUnpublished(s.events, event.job))
  }

  ghost predicate Staged(s: State, x: Session) {
    && (forall j | j in x.jobs :: StagedRow(s, x, j))
    && (forall e | e in x.events :: StagedEvent(s, x, e))
    && (forall e, f | e in x.events && f in x.events :: x.events[e].job == x.events[f].job ==> e == f)
  }

  lemma OneRowIsStaged(s: State, x: Session, j: nat, u: Update)
    requires JobsInv(s) && StagedOnly(s, x, j, u) && j in x.rows
    requires u.RequeueRunning? ==> s.jobs[j].attempts < MaxTotalAttempts(s.jobs[j].maxRetries)
    requires u.MarkCancelled? ==> s.jobs[j].cancelRequestedAt.Some?
    requires !u.MarkFailedWithoutExecution?
    requires u.MarkRunning? ==>
               && x.phase.ClaimReady? && x.phase.granted.Some? && x.phase.granted.value.job == j
               && u.token == x.phase.granted.value.token
    ensures forall k | k in x.jobs :: StagedRow(s, x, k)
  {
    UpdateIsRowStep(s.jobs[j], u, x.jobs[j].updatedAt);
  }

  lemma RecoveryRowsAreStaged(s: State, x: Session)
    requires JobsInv(s) && x.phase.Recovering? && RecoveryInv(s, x, x.phase.todo, x.phase.requeued, x.phase.readAt)
    ensures forall j | j in x.jobs :: StagedRow(s, x, j)
  {
    forall j | j in x.jobs ensures StagedRow(s, x, j) {
      assert RecoveryStaged(s, x, x.phase.requeued, j);
      UpdateIsRowStep(s.jobs[j], RecoveryUpdate(s.jobs[j]), x.jobs[j].updatedAt);
    }
  }

  lemma NewEventsAreStaged(s: State, x: Session)
    requires NewEvents(s, x)
    ensures forall e | e in x.events :: StagedEvent(s, x, e)
  {
  }

  lemma PublishIsStaged(c: Config, s: State, x: Session)
    requires JobsInv(s) && EventsInv(s) && x.phase.PubReady? && PhaseInv(c, s, x)
    ensures Staged(s, x)
  {
    var e := x.phase.e;
    if x.jobs != map[] {
      OneRowIsStaged(s, x, s.events[e].job, MarkQueued);
    }
  }

  lemma ClaimIsStaged(c: Config, s: State, x: Session)
    requires JobsInv(s) && x.phase.ClaimReady? && PhaseInv(c, s, x)
    ensures Staged(s, x)
  {
    if x.phase.granted.Some? {
      var claim := x.phase.granted.value;
      var row := x.jobs[claim.job];
      OneRowIsStaged(s, x, claim.job, MarkRunning(row.worker.value, claim.token, row.leaseExpiresAt.value));
    } else {
      NewEventsAreStaged(s, x);
    }
  }

  lemma VerdictIsStaged(c: Config, s: State, x: Session)
    requires JobsInv(s) && x.phase.SettleReady? && PhaseInv(c, s, x)
    ensures Staged(s, x)
  {
    OneRowIsStaged(s, x, x.phase.claim.job, VerdictUpdate(x.phase.claim, x.phase.verdict));
    NewEventsAreStaged(s, x);
  }

  lemma CancelIsStaged(c: Config, s: State, x: Session)
    requires JobsInv(s) && x.phase.CancelReady? && PhaseInv(c, s, x)
    ensures Staged(s, x)
  {
    OneRowIsStaged(s, x, x.phase.j, CancelUpdate(s.jobs[x.phase.j]).value);
  }

  lemma ReadyIsStaged(c: Config, s: State, x: Session)
    requires JobsInv(s) && EventsInv(s) && SessionInv(c, s, x) && Committing(x.phase)
    ensures Staged(s, x)
  {
    match x.phase
    case PubReady(_, _) => PublishIsStaged(c, s, x);
    case ClaimReady(_, _) => ClaimIsStaged(c, s, x);
    case SettleReady(_, _, _) => VerdictIsStaged(c, s, x);
    case CancelReady(_) => CancelIsStaged(c, s, x);
    case Recovering(_, _, _) =>
      RecoveryRowsAreStaged(s, x);
      NewEventsAreStaged(s, x);
  }

  /* ----- No job that the session had locked is left waiting for nothing ----- */

  ghost predicate WokenRow(s: State, x: Session, j: nat)
    requires j in s.jobs
  {
    var row := (s.jobs + x.jobs)[j];
    && row.status != Pending
    && (row.status == Queued ==>
          if x.phase.PubReady? then x.phase.accepted.Some? && LiveFor(s, x.phase.accepted.value, j)
          else Woken(s, x, j))
  }

  lemma RecoveryWakesItsRows(s: State, x: Session, j: nat)
    requires x.phase.Recovering? && Committing(x.phase)
    requires RecoveryInv(s, x, x.phase.todo, x.phase.requeued, x.phase.readAt)
    requires j in x.rows && j in s.jobs
    ensures WokenRow(s, x, j)
  {
    assert RecoveryStaged(s, x, x.phase.requeued, j);
  }

  lemma ReadyWakesItsRows(c: Config, s: State, x: Session, j: nat)
    requires PhaseInv(c, s, x) && Committing(x.phase)
    requires j in x.rows && j in s.jobs
    ensures WokenRow(s, x, j)
  {
    if x.phase.Recovering? {
      RecoveryWakesItsRows(s, x, j);
    }
  }

  /* ----- The commit itself ----- */

  lemma CommitKeepsJobs(s: State, a: nat)
    requires JobsInv(s) && a in s.sessions && Staged(s, s.sessions[a]) && ClaimInv(s, s.sessions[a].phase)
    ensures JobsInv(CommitSession(s, a))
  {
    var x, t := s.sessions[a], CommitSession(s, a);
    forall j | j in t.jobs
      ensures j < t.nextId && RowOk(t.jobs[j]) && (t.jobs[j].token.Some? ==> t.jobs[j].token.value < t.nextId)
    {
      if j in x.jobs {
        assert StagedRow(s, x, j);
      }
    }
    forall j, k | j in t.jobs && k in t.jobs && j != k && t.jobs[j].token.Some?
      ensures t.jobs[j].token != t.jobs[k].token
    {
      assert j in x.jobs ==> StagedRow(s, x, j);
      assert k in x.jobs ==> StagedRow(s, x, k);
    }
  }

  lemma CommitKeepsEvents(s: State, a: nat)
    requires EventsInv(s) && a in s.sessions && Staged(s, s.sessions[a])
    ensures EventsInv(CommitSession(s, a))
  {
    var x, t := s.sessions[a], CommitSession(s, a);
    forall e | e in t.events
      ensures e < t.nextId && t.events[e].job in t.jobs && t.events[e].payload == Dispatch(e, t.events[e].job)
    {
      assert e in x.events ==> StagedEvent(s, x, e);
    }
    forall e, f | e in t.events && f in t.events && t.events[e].publishedAt.None? && t.events[f].publishedAt.None?
                  && t.events[e].job == t.events[f].job
      ensures e == f
    {
      assert e in x.events ==> StagedEvent(s, x, e);
      assert f in x.events ==> StagedEvent(s, x, f);
      assert e !in x.events ==> Unpublished(s.events, e, t.events[e].job);
      assert f !in x.events ==> Unpublished(s.events, f, t.events[f].job);
    }
  }

  lemma CommitKeepsRowKeys(s: State, a: nat)
    requires a in s.sessions && Staged(s, s.sessions[a])
    ensures CommitSession(s, a).jobs.Keys == s.jobs.Keys
  {
    var x := s.sessions[a];
    forall j | j in x.jobs ensures j in s.jobs {
      assert StagedRow(s, x, j);
    }
  }

  lemma CommitKeepsQueue(s: State, a: nat)
    requires QueueInv(s) && a in s.sessions && Staged(s, s.sessions[a]) && Committing(s.sessions[a].phase)
    ensures QueueInv(CommitSession(s, a))
  {
    hide Staged;
    CommitKeepsRowKeys(s, a);
  }

  // After its commit a session has no locks and nothing staged, and at most the claim it had.
  lemma CommittedStaysApart(s: State, a: nat, b: nat)
    requires a in s.sessions && a in CommitSession(s, a).sessions && b in s.sessions && b != a
    requires Apart(s.sessions[a], s.sessions[b]) && Apart(s.sessions[b], s.sessions[a])
    ensures var x := CommitSession(s, a).sessions[a]; Apart(x, s.sessions[b]) && Apart(s.sessions[b], x)
  {
  }

  lemma CommitKeepsApart(s: State, a: nat)
    requires ApartInv(s) && a in s.sessions
    ensures ApartInv(CommitSession(s, a))
  {
    hide Apart;
    var t := CommitSession(s, a);
    forall b, d | b in t.sessions && d in t.sessions && b != d ensures Apart(t.sessions[b], t.sessions[d]) {
      if b == a {
        CommittedStaysApart(s, a, d);
      } else if d == a {
        CommittedStaysApart(s, a, b);
      }
    }
  }

  lemma CommitKeepsCap(c: Config, s: State, a: nat)
    requires CapInv(c, s) && a in s.sessions && Committing(s.sessions[a].phase)
    requires Staged(s, s.sessions[a]) && PhaseInv(c, s, s.sessions[a])
    ensures CapInv(c, CommitSession(s, a))
  {
    var x, t := s.sessions[a], CommitSession(s, a);
    forall owner: nat ensures |RunningOf(t.jobs, owner)| <= c.maxRunningPerUser {
      var before, after := RunningOf(s.jobs, owner), RunningOf(t.jobs, owner);
      if j :| j in after && j !in before {
        assert StagedRow(s, x, j);
        forall k | k in after ensures k in before || k == j {
          assert k in x.jobs ==> StagedRow(s, x, k);
        }
        SubsetSize(after, before + {j});
      } else {
        SubsetSize(after, before);
      }
    }
  }

  // Only jobs that the session had locked gain or lose an event to publish.
  lemma CommitKeepsUnpublished(s: State, a: nat, j: nat)
    requires a in s.sessions && Staged(s, s.sessions[a]) && j !in s.sessions[a].rows
    ensures HasUnpublished(CommitSession(s, a).events, j) == HasUnpublished(s.events, j)
  {
    var x, t := s.sessions[a], CommitSession(s, a);
    forall e | e in x.events ensures StagedEvent(s, x, e) {}
    if HasUnpublished(s.events, j) {
      var e :| e in s.events && Unpublished(s.events, e, j);
      assert Unpublished(t.events, e, j);
    }
    if HasUnpublished(t.events, j) {
      var e :| e in t.events && Unpublished(t.events, e, j);
      assert Unpublished(s.events, e, j);
    }
  }

  lemma CommitWakes(s: State, a: nat, j: nat)
    requires a in s.sessions && Staged(s, s.sessions[a]) && !s.sessions[a].phase.PubReady?
    requires s.sessions[a].evs == {} && Woken(s, s.sessions[a], j)
    ensures HasUnpublished(CommitSession(s, a).events, j)
  {
    var x, t := s.sessions[a], CommitSession(s, a);
    if HasUnpublished(s.events, j) {
      var e :| e in s.events && Unpublished(s.events, e, j);
      assert e in x.events ==> StagedEvent(s, x, e);
      assert Unpublished(t.events, e, j);
    } else {
      var e :| e in x.events && Unpublished(x.events, e, j);
      assert Unpublished(t.events, e, j);
    }
  }

  // The session's own message is the only one that the commit decides, and it is for a row it locked.
  lemma CommitKeepsLive(c: Config, s: State, a: nat, m: nat)
    requires QueueInv(s) && a in s.sessions && Committing(s.sessions[a].phase) && PhaseInv(c, s, s.sessions[a])
    requires Live(s, m) && (s.queue[m].job !in s.sessions[a].rows || s.sessions[a].phase.PubReady?)
    ensures Live(CommitSession(s, a), m)
  {
  }

  lemma OnlyPublishersLockEvents(c: Config, s: State, x: Session)
    requires PhaseInv(c, s, x) && Committing(x.phase) && !x.phase.PubReady?
    ensures x.evs == {}
  {
  }

  lemma CommitKeepsWake(c: Config, s: State, a: nat)
    requires WakeInv(s) && QueueInv(s) && a in s.sessions && Committing(s.sessions[a].phase)
    requires Staged(s, s.sessions[a]) && PhaseInv(c, s, s.sessions[a])
    ensures WakeInv(CommitSession(s, a))
  {
    var x, t := s.sessions[a], CommitSession(s, a);
    forall j | j in t.jobs ensures Awaited(t, j) {
      assert j in x.jobs ==> StagedRow(s, x, j);
      if j in x.rows {
        ReadyWakesItsRows(c, s, x, j);
        if t.jobs[j].status == Queued {
          if x.phase.PubReady? {
            CommitKeepsLive(c, s, a, x.phase.accepted.value);
            assert LiveFor(t, x.phase.accepted.value, j);
          } else {
            OnlyPublishersLockEvents(c, s, x);
            CommitWakes(s, a, j);
          }
        }
      } else {
        assert Awaited(s, j);
        CommitKeepsUnpublished(s, a, j);
        if HasLive(s, j) {
          var m :| m in s.queue && LiveFor(s, m, j);
          CommitKeepsLive(c, s, a, m);
          assert LiveFor(t, m, j);
        }
      }
    }
  }

  lemma CommitKeepsOthersOwners(c: Config, s: State, a: nat, b: nat, owner: nat)
    requires a in s.sessions && b in s.sessions && a != b && Apart(s.sessions[a], s.sessions[b])
    requires Staged(s, s.sessions[a]) && PhaseInv(c, s, s.sessions[a]) && Committing(s.sessions[a].phase)
    requires owner in s.sessions[b].owners
    ensures RunningOf(CommitSession(s, a).jobs, owner) <= RunningOf(s.jobs, owner)
  {
    var x, t := s.sessions[a], CommitSession(s, a);
    forall j | j in RunningOf(t.jobs, owner) ensures j in RunningOf(s.jobs, owner) {
      if j in x.jobs {
        assert StagedRow(s, x, j);
      }
    }
  }

  lemma CommitKeepsOthersClaim(s: State, a: nat, b: nat, claim: Claim)
    requires a in s.sessions && b in s.sessions && a != b && Apart(s.sessions[a], s.sessions[b])
    requires Staged(s, s.sessions[a]) && JobsInv(s) && ClaimOf(s.sessions[b].phase) == Some(claim)
    ensures ClaimUndisturbed(s, CommitSession(s, a), claim)
  {
    var x, t := s.sessions[a], CommitSession(s, a);
    forall j | j in t.jobs && t.jobs[j].token == Some(claim.token)
      ensures && j in s.jobs && s.jobs[j].token == t.jobs[j].token && s.jobs[j].attempts == t.jobs[j].attempts
              && (s.jobs[j].cancelRequestedAt.Some? ==> t.jobs[j].cancelRequestedAt.Some?)
    {
      if j in x.jobs {
        assert StagedRow(s, x, j);
      }
    }
  }

  lemma CommitKeepsOthersLocked(s: State, a: nat, b: nat)
    requires a in s.sessions && b in s.sessions && a != b && Apart(s.sessions[a], s.sessions[b])
    requires Staged(s, s.sessions[a])
    ensures var t, y := CommitSession(s, a), s.sessions[b];
            && t.jobs.Keys == s.jobs.Keys
            && (forall j | j in s.jobs ::
                  t.jobs[j].owner == s.jobs[j].owner && t.jobs[j].maxRetries == s.jobs[j].maxRetries)
            && (forall j | j in y.rows && j in s.jobs ::
                  t.jobs[j] == s.jobs[j] && HasUnpublished(t.events, j) == HasUnpublished(s.events, j))
            && (forall e | e in y.evs && e in s.events :: e in t.events && t.events[e] == s.events[e])
            && (forall e | e in y.events && e !in s.events :: e !in t.events)
  {
    var x, t, y := s.sessions[a], CommitSession(s, a), s.sessions[b];
    forall j | j in x.jobs ensures StagedRow(s, x, j) {}
    forall e | e in x.events ensures StagedEvent(s, x, e) {}
    forall j | j in y.rows && j in s.jobs
      ensures t.jobs[j] == s.jobs[j] && HasUnpublished(t.events, j) == HasUnpublished(s.events, j)
    {
      CommitKeepsUnpublished(s, a, j);
    }
  }

  lemma CommitLeavesOthers(c: Config, s: State, a: nat, b: nat)
    requires TablesInv(c, s) && a in s.sessions && b in s.sessions && a != b
    requires Staged(s, s.sessions[a]) && PhaseInv(c, s, s.sessions[a]) && Committing(s.sessions[a].phase)
    ensures Undisturbed(s, CommitSession(s, a), s.sessions[b])
  {
    var x, t, y := s.sessions[a], CommitSession(s, a), s.sessions[b];
    assert Apart(x, y);
    CommitKeepsOthersLocked(s, a, b);
    forall owner | owner in y.owners ensures RunningOf(t.jobs, owner) <= RunningOf(s.jobs, owner) {
      CommitKeepsOthersOwners(c, s, a, b, owner);
    }
    if ClaimOf(y.phase).Some? {
      CommitKeepsOthersClaim(s, a, b, ClaimOf(y.phase).value);
    }
    forall m | m in s.queue && s.queue[m].job in y.rows && Live(s, m) ensures Live(t, m) {
      CommitKeepsLive(c, s, a, m);
    }
  }

  lemma GrantedClaimHolds(s: State, a: nat, m: nat, claim: Claim)
    requires a in s.sessions && s.sessions[a].phase == ClaimReady(m, Some(claim))
    requires Staged(s, s.sessions[a]) && ClaimInv(s, s.sessions[a].phase)
    requires s.sessions[a].jobs.Keys == {claim.job} && claim.job in s.jobs
    requires s.sessions[a].jobs[claim.job].attempts == claim.attempt
    ensures ClaimInv(CommitSession(s, a), Executing(m, claim, false))
  {
    var x, t := s.sessions[a], CommitSession(s, a);
    assert StagedRow(s, x, claim.job);
    assert t.jobs.Keys == s.jobs.Keys;
    forall j | j in t.jobs && t.jobs[j].token == Some(claim.token)
      ensures j == claim.job && t.jobs[j].attempts == claim.attempt
    {
      assert j in x.jobs;
    }
  }

  lemma IdleIsSound(c: Config, s: State, p: Phase)
    requires p.Handled? || (p.Executing? && ClaimInv(s, p))
    ensures SessionInv(c, s, Idle(p))
  {
  }

  lemma CommitKeepsOwn(c: Config, s: State, a: nat)
    requires a in s.sessions && Staged(s, s.sessions[a])
    requires PhaseInv(c, s, s.sessions[a]) && ClaimInv(s, s.sessions[a].phase) && Committing(s.sessions[a].phase)
    ensures var t := CommitSession(s, a); a in t.sessions ==> SessionInv(c, t, t.sessions[a])
  {
    var x, t := s.sessions[a], CommitSession(s, a);
    if x.phase.ClaimReady? && x.phase.granted.Some? {
      GrantedClaimHolds(s, a, x.phase.m, x.phase.granted.value);
    }
    if a in t.sessions {
      IdleIsSound(c, t, AfterCommit(x.phase).value);
    }
  }

  lemma CommitLeavesSessions(c: Config, s: State, a: nat)
    requires TablesInv(c, s) && a in s.sessions
    requires Staged(s, s.sessions[a]) && PhaseInv(c, s, s.sessions[a]) && Committing(s.sessions[a].phase)
    ensures Bystanders(s, CommitSession(s, a), Some(a))
  {
    var t := CommitSession(s, a);
    forall b | b in t.sessions && b != a ensures Undisturbed(s, t, s.sessions[b]) {
      CommitLeavesOthers(c, s, a, b);
    }
  }

  lemma CommitKeepsTables(c: Config, s: State, a: nat)
    requires TablesInv(c, s) && a in s.sessions && Staged(s, s.sessions[a])
    requires SessionInv(c, s, s.sessions[a]) && Committing(s.sessions[a].phase)
    ensures TablesInv(c, CommitSession(s, a))
  {
    CommitKeepsJobs(s, a);
    CommitKeepsEvents(s, a);
    CommitKeepsQueue(s, a);
    CommitKeepsCap(c, s, a);
    CommitKeepsApart(s, a);
  }

  lemma CommitKeepsInv(c: Config, s: State, a: nat)
    requires Inv(c, s) && a in s.sessions && Committing(s.sessions[a].phase)
    ensures Inv(c, CommitSession(s, a))
  {
    var t := CommitSession(s, a);
    assert SessionInv(c, s, s.sessions[a]);
    ReadyIsStaged(c, s, s.sessions[a]);
    CommitKeepsTables(c, s, a);
    CommitKeepsWake(c, s, a);
    CommitKeepsOwn(c, s, a);
    CommitLeavesSessions(c, s, a);
    BystandersKeepInv(c, s, t, Some(a));
  }

  /* ----- Every step ----- */

  lemma StatementKeepsInv(c: Config, s: State, st: Step)
    requires Inv(c, s) && Enabled(c, s, st)
    requires st.Publish? || st.ToClaim? || st.Execute? || st.Recover? || st.ApiCancel?
    ensures Inv(c, Apply(c, s, st))
  {
    match st
    case Publish(a, op) => PublishStatementKeepsInv(c, s, a, op);
    case ToClaim(a, op) => ClaimStatementKeepsInv(c, s, a, op);
    case Execute(a, op) => ExecuteStatementKeepsInv(c, s, a, op);
    case Recover(a, op) => RecoverStatementKeepsInv(c, s, a, op);
    case ApiCancel(a, op) => CancelStatementKeepsInv(c, s, a, op);
  }

  lemma StepKeepsInv(c: Config, s: State, st: Step)
    requires Inv(c, s) && Enabled(c, s, st)
    ensures Inv(c, Apply(c, s, st))
  {
    hide Inv;
    match st
    case Create(owner, maxRetries, at) => CreateKeepsInv(c, s, owner, maxRetries, at);
    case Commit(a) => CommitKeepsInv(c, s, a);
    case RecordFailure(a, error) => RecordFailureKeepsInv(c, s, a, error);
    case Deliver(_, _) => BrokerStepKeepsInv(c, s, st);
    case Ack(_) => BrokerStepKeepsInv(c, s, st);
    case Send(_) => BrokerStepKeepsInv(c, s, st);
    case Crash(_) => BrokerStepKeepsInv(c, s, st);
    case Raise(a) => RaiseKeepsInv(c, s, a);
    case _ => StatementKeepsInv(c, s, st);
  }
}
