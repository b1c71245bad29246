/** What holds over whole runs of the dispatch protocol, from an empty database on. */
module ProtocolRuns {
  import opened Wrappers
  import opened JobState
  import opened JobRows
  import opened Outbox
  import opened Protocol
  import opened ProtocolInvariant
  import opened ProtocolCommit

  ghost predicate IsRun(c: Config, run: seq<State>) {
    && |run| > 0 && run[0] == INITIAL
    && forall i | 0 <= i < |run| - 1 :: Next(c, run[i], run[i + 1])
  }

  lemma {:induction false} ReachableKeepsInv(c: Config, run: seq<State>, i: nat)
    requires IsRun(c, run) && i < |run|
    ensures Inv(c, run[i])
  {
    if i > 0 {
      ReachableKeepsInv(c, run, i - 1);
      assert Next(c, run[i - 1], run[i - 1 + 1]);
      var st :| Enabled(c, run[i - 1], st) && run[i] == Apply(c, run[i - 1], st);
      StepKeepsInv(c, run[i - 1], st);
    }
  }

  // A step of a run, from a state that satisfies the invariant.
  lemma RunStep(c: Config, run: seq<State>, i: nat)
    requires IsRun(c, run) && i + 1 < |run|
    ensures Inv(c, run[i]) && Next(c, run[i], run[i + 1])
  {
    ReachableKeepsInv(c, run, i);
  }

  lemma ExtendRun(c: Config, run: seq<State>, st: Step)
    requires IsRun(c, run) && Enabled(c, run[|run| - 1], st)
    ensures IsRun(c, run + [Apply(c, run[|run| - 1], st)])
  {
    var longer := run + [Apply(c, run[|run| - 1], st)];
    forall i | 0 <= i < |longer| - 1 ensures Next(c, longer[i], longer[i + 1]) {
      if i < |run| - 1 {
        assert Next(c, run[i], run[i + 1]);
      }
    }
  }

  /* ----- Every reachable state ----- */

  /**
   No job is ever lost.  Whatever crashed, was redelivered or failed to commit:
   a pending job has an event to publish, a queued job has an event to publish or
   a message that can still start it, and recovery finds a running job as soon as
   its lease is over.
   */
  lemma NoJobIsLost(c: Config, run: seq<State>, i: nat, j: nat)
    requires IsRun(c, run) && i < |run| && j in run[i].jobs
    ensures var s, job := run[i], run[i].jobs[j];
            match job.status
            case Pending => HasUnpublished(s.events, j)
            case Queued => HasUnpublished(s.events, j) || HasLive(s, j)
            case Running =>
              && job.token.Some? && job.leaseExpiresAt.Some?
              && forall now: int :: Expired(job, now) <==> now > job.leaseExpiresAt.value
            case _ => job.finishedAt.Some?
  {
    ReachableKeepsInv(c, run, i);
    assert Awaited(run[i], j);
  }

  /** Every committed row has the columns of its status and no others, and attempts within its bounds. */
  lemma RowsAreWellShaped(c: Config, run: seq<State>, i: nat, j: nat)
    requires IsRun(c, run) && i < |run| && j in run[i].jobs
    ensures WellShaped(run[i].jobs[j]) && AttemptsInBounds(run[i].jobs[j])
  {
    ReachableKeepsInv(c, run, i);
  }

  /** The committed running jobs of an owner never exceed the configured cap. */
  lemma RunningCapHolds(c: Config, run: seq<State>, i: nat, owner: nat)
    requires IsRun(c, run) && i < |run|
    ensures |RunningOf(run[i].jobs, owner)| <= c.maxRunningPerUser
  {
    ReachableKeepsInv(c, run, i);
  }

  /** A job never has two dispatch events to publish, although others run between the check and the commit. */
  lemma OneUnpublishedEventPerJob(c: Config, run: seq<State>, i: nat, e: nat, f: nat, j: nat)
    requires IsRun(c, run) && i < |run|
    requires Unpublished(run[i].events, e, j) && Unpublished(run[i].events, f, j)
    ensures e == f
  {
    ReachableKeepsInv(c, run, i);
  }

  /** The job that the publisher locks is the job that its message names. */
  lemma MessagesNameTheLockedJob(c: Config, run: seq<State>, i: nat, e: nat)
    requires IsRun(c, run) && i < |run| && e in run[i].events
    ensures run[i].events[e].payload == Dispatch(e, run[i].events[e].job)
    ensures run[i].events[e].job in run[i].jobs
  {
    ReachableKeepsInv(c, run, i);
  }

  /* ----- Every step ----- */

  lemma StagedMovesRows(s: State, a: nat)
    requires JobsInv(s) && a in s.sessions && Staged(s, s.sessions[a])
    ensures var t := CommitSession(s, a);
            t.jobs.Keys == s.jobs.Keys && forall j | j in s.jobs :: RowStep(s.jobs[j], t.jobs[j])
  {
    var x := s.sessions[a];
    CommitKeepsRowKeys(s, a);
    forall j | j in s.jobs ensures RowStep(s.jobs[j], CommitSession(s, a).jobs[j]) {
      assert j in x.jobs ==> StagedRow(s, x, j);
    }
  }

  lemma CommitMovesRows(c: Config, s: State, a: nat)
    requires Inv(c, s) && a in s.sessions && Committing(s.sessions[a].phase)
    ensures var t := CommitSession(s, a);
            t.jobs.Keys == s.jobs.Keys && forall j | j in s.jobs :: RowStep(s.jobs[j], t.jobs[j])
  {
    hide Committing, SessionInv, JobsInv, EventsInv, Staged;
    assert SessionInv(c, s, s.sessions[a]);
    ReadyIsStaged(c, s, s.sessions[a]);
    StagedMovesRows(s, a);
  }

  /** A failed publish, a crash: nothing but a commit changes a row, and nothing but a creation adds one. */
  lemma OnlyCommitsWriteRows(c: Config, s: State, st: Step)
    requires Enabled(c, s, st) && !st.Commit? && !st.Create?
    ensures Apply(c, s, st).jobs == s.jobs
  {
  }

  lemma CreateMovesRows(s: State, owner: nat, maxRetries: nat, at: int)
    requires JobsInv(s)
    ensures var t := CreateJob(s, owner, maxRetries, at);
            && t.jobs.Keys == s.jobs.Keys + {s.nextId}
            && (forall j | j in s.jobs :: t.jobs[j] == s.jobs[j] && RowStep(s.jobs[j], t.jobs[j]))
            && t.jobs[s.nextId].status == Pending && t.jobs[s.nextId].attempts == 0
  {
  }

  // Rows only appear as new pending jobs, and only go through legal row steps.
  ghost predicate RowsMove(s: State, t: State) {
    && (forall j | j in s.jobs :: j in t.jobs && RowStep(s.jobs[j], t.jobs[j]))
    && (forall j | j in t.jobs && j !in s.jobs :: t.jobs[j].status == Pending && t.jobs[j].attempts == 0)
  }

  lemma LabelMovesRows(c: Config, s: State, st: Step)
    requires Inv(c, s) && Enabled(c, s, st)
    ensures RowsMove(s, Apply(c, s, st))
  {
    if st.Commit? {
      CommitMovesRows(c, s, st.a);
    } else if st.Create? {
      CreateMovesRows(s, st.owner, st.maxRetries, st.at);
    } else {
      OnlyCommitsWriteRows(c, s, st);
    }
  }

  lemma StepMovesRows(c: Config, s: State, t: State)
    requires Inv(c, s) && Next(c, s, t)
    ensures RowsMove(s, t)
  {
    var st :| Enabled(c, s, st) && t == Apply(c, s, st);
    LabelMovesRows(c, s, st);
  }

  /** Every status change in any run is an edge of the domain's transition graph. */
  lemma StatusChangesFollowThePolicy(c: Config, run: seq<State>, i: nat, j: nat)
    requires IsRun(c, run) && i + 1 < |run| && j in run[i].jobs
    ensures j in run[i + 1].jobs
    ensures run[i + 1].jobs[j].status == run[i].jobs[j].status
            || CanTransition(run[i].jobs[j].status, run[i + 1].jobs[j].status)
  {
    ReachableKeepsInv(c, run, i);
    StepMovesRows(c, run[i], run[i + 1]);
  }

  /* ----- Counting over a run ----- */

  // The number of status changes of job `j`.
  ghost function StatusChanges(run: seq<State>, j: nat): nat {
    if |run| < 2 then 0
    else
      var s, t := run[|run| - 2], run[|run| - 1];
      StatusChanges(run[..|run| - 1], j)
      + if j in s.jobs && j in t.jobs && s.jobs[j].status != t.jobs[j].status then 1 else 0
  }

  // The number of times an execution of job `j` was granted.
  ghost function Grants(run: seq<State>, j: nat): nat {
    if |run| < 2 then 0
    else
      var s, t := run[|run| - 2], run[|run| - 1];
      Grants(run[..|run| - 1], j)
      + if j in t.jobs && t.jobs[j].status == Running && (j in s.jobs ==> s.jobs[j].status != Running) then 1 else 0
  }

  lemma PrefixIsRun(c: Config, run: seq<State>)
    requires IsRun(c, run) && |run| > 1
    ensures IsRun(c, run[..|run| - 1])
  {
    var pre := run[..|run| - 1];
    forall i | 0 <= i < |pre| - 1 ensures Next(c, pre[i], pre[i + 1]) {
      assert Next(c, run[i], run[i + 1]);
    }
  }

  lemma {:induction false} LastStep(c: Config, run: seq<State>)
    requires IsRun(c, run) && |run| > 1
    ensures Inv(c, run[|run| - 2]) && Next(c, run[|run| - 2], run[|run| - 1])
  {
    ReachableKeepsInv(c, run, |run| - 2);
    assert Next(c, run[|run| - 2], run[|run| - 2 + 1]);
  }

  /**
   The termination measure of a job.  Whatever the messages, retries, recoveries
   and cancellations, the changes made so far and the changes still possible never
   exceed 2 * M + 1 together, M being the attempts the job is allowed: one more than
   its retries, and four at most.
   */
  lemma {:induction false} StatusChangesAreBounded(c: Config, run: seq<State>, j: nat)
    requires IsRun(c, run)
    ensures var s := run[|run| - 1];
            if j in s.jobs then
              && AttemptsInBounds(s.jobs[j])
              && StatusChanges(run, j) + ChangesLeft(s.jobs[j])
                 <= (if s.jobs[j].maxRetries < 3 then 2 * s.jobs[j].maxRetries + 3 else 9)
            else StatusChanges(run, j) == 0
  {
    if |run| > 1 {
      var s, t := run[|run| - 2], run[|run| - 1];
      PrefixIsRun(c, run);
      LastStep(c, run);
      StatusChangesAreBounded(c, run[..|run| - 1], j);
      StepMovesRows(c, s, t);
      if j in s.jobs {
        RowStepUsesUpChanges(s.jobs[j], t.jobs[j]);
      }
    }
  }

  /**
   Bounded execution: however often messages are duplicated and redelivered, the
   executions ever granted for a job are its attempt count, which is at most one more
   than its retries, and at most four.
   */
  lemma {:induction false} GrantsAreTheAttempts(c: Config, run: seq<State>, j: nat)
    requires IsRun(c, run)
    ensures var s := run[|run| - 1];
            if j in s.jobs then
              Grants(run, j) == s.jobs[j].attempts <= (if s.jobs[j].maxRetries < 3 then s.jobs[j].maxRetries + 1 else 4)
            else Grants(run, j) == 0
  {
    if |run| > 1 {
      var s, t := run[|run| - 2], run[|run| - 1];
      PrefixIsRun(c, run);
      LastStep(c, run);
      GrantsAreTheAttempts(c, run[..|run| - 1], j);
      StepMovesRows(c, s, t);
    }
  }

  /* ----- Fencing by execution tokens ----- */

  // The token has been used and no row carries it or is about to.
  ghost predicate Retired(s: State, token: nat) {
    && token < s.nextId
    && (forall j | j in s.jobs :: s.jobs[j].token != Some(token))
    && (forall a | a in s.sessions && s.sessions[a].phase.ClaimReady? && s.sessions[a].phase.granted.Some? ::
          s.sessions[a].phase.granted.value.token != token)
  }

  lemma CommitKeepsRetired(c: Config, s: State, a: nat, token: nat)
    requires Inv(c, s) && a in s.sessions && Committing(s.sessions[a].phase) && Retired(s, token)
    ensures Retired(CommitSession(s, a), token)
  {
    var x, t := s.sessions[a], CommitSession(s, a);
    assert SessionInv(c, s, x);
    ReadyIsStaged(c, s, x);
    forall j | j in t.jobs ensures t.jobs[j].token != Some(token) {
      assert j in x.jobs ==> StagedRow(s, x, j);
    }
  }

  lemma ClaimStatementKeepsRetired(c: Config, s: State, a: nat, op: ClaimOp, token: nat)
    requires ClaimEnabled(c, s, a, op) && Retired(s, token)
    ensures Retired(With(s, a, ClaimSession(c, s, a, op)), token)
  {
  }

  // The other statements do not grant claims.
  lemma StatementKeepsRetired(c: Config, s: State, st: Step, token: nat)
    requires Enabled(c, s, st) && Retired(s, token)
    requires st.Publish? || st.Execute? || st.Recover? || st.ApiCancel?
    ensures Retired(Apply(c, s, st), token)
  {
  }

  lemma BrokerKeepsRetired(c: Config, s: State, st: Step, token: nat)
    requires Enabled(c, s, st) && Retired(s, token)
    requires st.Create? || st.Deliver? || st.Ack? || st.Send? || st.RecordFailure? || st.Raise? || st.Crash?
    ensures Retired(Apply(c, s, st), token)
  {
  }

  lemma StepKeepsRetired(c: Config, s: State, st: Step, token: nat)
    requires Inv(c, s) && Enabled(c, s, st) && Retired(s, token)
    ensures Retired(Apply(c, s, st), token)
  {
    hide Inv, Retired;
    match st
    case Commit(a) => CommitKeepsRetired(c, s, a, token);
    case Publish(_, _) => StatementKeepsRetired(c, s, st, token);
    case ToClaim(a, op) => ClaimStatementKeepsRetired(c, s, a, op, token);
    case Execute(_, _) => StatementKeepsRetired(c, s, st, token);
    case Recover(_, _) => StatementKeepsRetired(c, s, st, token);
    case ApiCancel(_, _) => StatementKeepsRetired(c, s, st, token);
    case _ => BrokerKeepsRetired(c, s, st, token);
  }

  lemma NextKeepsRetired(c: Config, s: State, t: State, token: nat)
    requires Inv(c, s) && Next(c, s, t) && Retired(s, token)
    ensures Retired(t, token)
  {
    var st :| Enabled(c, s, st) && t == Apply(c, s, st);
    StepKeepsRetired(c, s, st, token);
  }

  lemma {:induction false} RetiredForGood(c: Config, run: seq<State>, i: nat, k: nat, token: nat)
    requires IsRun(c, run) && i <= k < |run| && Retired(run[i], token)
    ensures Retired(run[k], token)
  {
    hide IsRun, Inv, Next, Retired;
    if i < k {
      RetiredForGood(c, run, i, k - 1, token);
      RunStep(c, run, k - 1);
      NextKeepsRetired(c, run[k - 1], run[k], token);
    }
  }

  // Row `j` gives up `token` between states `i` and `i + 1`.
  ghost predicate GivesUp(run: seq<State>, i: nat, j: nat, token: nat)
    requires i + 1 < |run|
  {
    && j in run[i].jobs && run[i].jobs[j].token == Some(token)
    && (j in run[i + 1].jobs ==> run[i + 1].jobs[j].token != Some(token))
  }

  // A token on a row is not about to be granted again.
  lemma TokensOnRowsAreNotPromised(c: Config, s: State, j: nat, token: nat)
    requires SessionsInv(c, s) && j in s.jobs && s.jobs[j].token == Some(token)
    ensures forall b | b in s.sessions && s.sessions[b].phase.ClaimReady? && s.sessions[b].phase.granted.Some? ::
              s.sessions[b].phase.granted.value.token != token
  {
    forall b | b in s.sessions && s.sessions[b].phase.ClaimReady? && s.sessions[b].phase.granted.Some?
      ensures s.sessions[b].phase.granted.value.token != token
    {
      assert ClaimInv(s, s.sessions[b].phase) by { assert SessionInv(c, s, s.sessions[b]); }
    }
  }

  lemma StagedRowsCarryNo(s: State, a: nat, j: nat, token: nat)
    requires JobsInv(s) && a in s.sessions && Staged(s, s.sessions[a])
    requires j in s.jobs && s.jobs[j].token == Some(token)
    requires var t := CommitSession(s, a); j in t.jobs ==> t.jobs[j].token != Some(token)
    requires var p := s.sessions[a].phase;
             p.ClaimReady? && p.granted.Some? ==> p.granted.value.token != token
    ensures forall k | k in CommitSession(s, a).jobs :: CommitSession(s, a).jobs[k].token != Some(token)
  {
    var x, t := s.sessions[a], CommitSession(s, a);
    forall k | k in t.jobs ensures t.jobs[k].token != Some(token) {
      assert k in x.jobs ==> StagedRow(s, x, k);
    }
  }

  lemma CommitRetires(c: Config, s: State, a: nat, j: nat, token: nat)
    requires Inv(c, s) && a in s.sessions && Committing(s.sessions[a].phase)
    requires j in s.jobs && s.jobs[j].token == Some(token)
    requires var t := CommitSession(s, a); j in t.jobs ==> t.jobs[j].token != Some(token)
    ensures Retired(CommitSession(s, a), token)
  {
    assert SessionInv(c, s, s.sessions[a]);
    ReadyIsStaged(c, s, s.sessions[a]);
    TokensOnRowsAreNotPromised(c, s, j, token);
    StagedRowsCarryNo(s, a, j, token);
  }

  lemma GivingUpRetires(c: Config, run: seq<State>, i: nat, j: nat, token: nat)
    requires IsRun(c, run) && i + 1 < |run| && GivesUp(run, i, j, token)
    ensures Retired(run[i + 1], token)
  {
    var s := run[i];
    ReachableKeepsInv(c, run, i);
    assert Next(c, s, run[i + 1]);
    var st :| Enabled(c, s, st) && run[i + 1] == Apply(c, s, st);
    if st.Commit? {
      CommitRetires(c, s, st.a, j, token);
    } else if st.Create? {
      CreateMovesRows(s, st.owner, st.maxRetries, st.at);
    } else {
      OnlyCommitsWriteRows(c, s, st);
    }
  }

  /** Each execution token ends at most one execution: a row gives it up once, and no row carries it again. */
  lemma TokensSettleOnce(c: Config, run: seq<State>, i: nat, j: nat, i': nat, j': nat, token: nat)
    requires IsRun(c, run) && i + 1 < |run| && i' + 1 < |run|
    requires GivesUp(run, i, j, token) && GivesUp(run, i', j', token)
    ensures i == i' && j == j'
  {
    if i < i' {
      GivingUpRetires(c, run, i, j, token);
      RetiredForGood(c, run, i + 1, i', token);
    } else if i' < i {
      GivingUpRetires(c, run, i', j', token);
      RetiredForGood(c, run, i' + 1, i, token);
    } else {
      ReachableKeepsInv(c, run, i);
    }
  }

  // Session `a` executes or settles `claim`.
  ghost predicate Holds(s: State, a: nat, claim: Claim) {
    a in s.sessions && Granted(s.sessions[a].phase) && s.sessions[a].phase.claim == claim
  }

  lemma UncurrentClaimIsRetired(c: Config, s: State, a: nat, claim: Claim)
    requires ApartInv(s) && Holds(s, a, claim) && ClaimInv(s, s.sessions[a].phase)
    requires claim.job in s.jobs ==> s.jobs[claim.job].token != Some(claim.token)
    ensures Retired(s, claim.token)
  {
    forall b | b in s.sessions && s.sessions[b].phase.ClaimReady? && s.sessions[b].phase.granted.Some?
      ensures s.sessions[b].phase.granted.value.token != claim.token
    {
      assert Apart(s.sessions[a], s.sessions[b]);
    }
  }

  lemma RetiredClaimHasNothingStaged(c: Config, s: State, a: nat, claim: Claim)
    requires SessionsInv(c, s) && Holds(s, a, claim) && Retired(s, claim.token)
    ensures s.sessions[a].jobs == map[] && s.sessions[a].events == map[]
  {
    assert SessionInv(c, s, s.sessions[a]);
    assert ExecutorInv(s, s.sessions[a]);
  }

  /**
   A worker whose token is no longer the row's never writes again: from then on,
   as long as it holds the claim, it has nothing staged.
   */
  lemma StaleWorkersNeverWrite(c: Config, run: seq<State>, i: nat, k: nat, a: nat, claim: Claim)
    requires IsRun(c, run) && i <= k < |run|
    requires Holds(run[i], a, claim) && Holds(run[k], a, claim)
    requires claim.job in run[i].jobs ==> run[i].jobs[claim.job].token != Some(claim.token)
    ensures run[k].sessions[a].jobs == map[] && run[k].sessions[a].events == map[]
  {
    ReachableKeepsInv(c, run, i);
    assert SessionInv(c, run[i], run[i].sessions[a]);
    UncurrentClaimIsRetired(c, run[i], a, claim);
    RetiredForGood(c, run, i, k, claim.token);
    ReachableKeepsInv(c, run, k);
    RetiredClaimHasNothingStaged(c, run[k], a, claim);
  }

  lemma HeldClaimsDiffer(s: State, a: nat, b: nat, x: Claim, y: Claim)
    requires ApartInv(s) && a != b && Holds(s, a, x) && Holds(s, b, y)
    ensures x.token != y.token
  {
    assert Apart(s.sessions[a], s.sessions[b]);
  }

  lemma HeldClaimIsSound(c: Config, s: State, a: nat, claim: Claim)
    requires SessionsInv(c, s) && Holds(s, a, claim)
    ensures a in s.sessions && ClaimInv(s, s.sessions[a].phase)
  {
    assert SessionInv(c, s, s.sessions[a]);
  }

  /** When two sessions have claims of one job, at least one of them is fenced off for good. */
  lemma OverlappingClaimsAreFenced(c: Config, run: seq<State>, i: nat, a: nat, b: nat, x: Claim, y: Claim)
    requires IsRun(c, run) && i < |run| && a != b
    requires Holds(run[i], a, x) && Holds(run[i], b, y) && x.job == y.job
    ensures Retired(run[i], x.token) || Retired(run[i], y.token)
  {
    ReachableKeepsInv(c, run, i);
    hide IsRun, JobsInv, EventsInv, QueueInv, CapInv, WakeInv, ApartInv, SessionsInv, ClaimInv, Holds, Retired;
    var s := run[i];
    HeldClaimIsSound(c, s, a, x);
    HeldClaimIsSound(c, s, b, y);
    HeldClaimsDiffer(s, a, b, x, y);
    if x.job in s.jobs && s.jobs[x.job].token == Some(x.token) {
      UncurrentClaimIsRetired(c, s, b, y);
    } else {
      UncurrentClaimIsRetired(c, s, a, x);
    }
  }

  /** A worker whose token is the row's knows the row's attempt count, and that the row is running. */
  lemma CurrentWorkersAgreeWithTheRow(c: Config, run: seq<State>, i: nat, a: nat, claim: Claim)
    requires IsRun(c, run) && i < |run| && Holds(run[i], a, claim)
    ensures claim.job in run[i].jobs
    ensures var job := run[i].jobs[claim.job];
            job.token == Some(claim.token) ==> job.status == Running && job.attempts == claim.attempt
  {
    ReachableKeepsInv(c, run, i);
    assert SessionInv(c, run[i], run[i].sessions[a]);
  }
}
