/** When a claim stops being its row's, and so when two executions of one job can overlap. */
module ProtocolTakeover {
  import opened Wrappers
  import opened JobState
  import opened JobRows
  import opened Protocol
  import opened ProtocolInvariant
  import opened ProtocolRuns

  // From `s` to `t`, recovery `r` commits; it had found the lease of the claim's row over, and takes the row back.
  ghost predicate TakesBack(s: State, t: State, r: nat, claim: Claim) {
    && r in s.sessions && s.sessions[r].phase.Recovering? && Committing(s.sessions[r].phase)
    && claim.job in s.sessions[r].jobs && claim.job in s.jobs && s.jobs[claim.job].token == Some(claim.token)
    && Expired(s.jobs[claim.job], s.sessions[r].phase.readAt)
    && t == CommitSession(s, r)
  }

  ghost predicate TakenBack(run: seq<State>, k: nat, claim: Claim)
    requires k + 1 < |run|
  {
    exists r | r in run[k].sessions :: TakesBack(run[k], run[k + 1], r, claim)
  }

  lemma TakingBackFreesTheRow(c: Config, s: State, t: State, r: nat, claim: Claim)
    requires TakesBack(s, t, r, claim) && SessionInv(c, s, s.sessions[r])
    ensures claim.job in t.jobs && t.jobs[claim.job].token == None
  {
    assert RecoveryStaged(s, s.sessions[r], s.sessions[r].phase.requeued, claim.job);
  }

  lemma TakingBackRetires(c: Config, run: seq<State>, k: nat, claim: Claim)
    requires IsRun(c, run) && k + 1 < |run| && TakenBack(run, k, claim)
    ensures Retired(run[k + 1], claim.token)
  {
    hide IsRun, Retired, SessionInv, TablesInv, WakeInv;
    var r :| r in run[k].sessions && TakesBack(run[k], run[k + 1], r, claim);
    ReachableKeepsInv(c, run, k);
    assert SessionInv(c, run[k], run[k].sessions[r]);
    TakingBackFreesTheRow(c, run[k], run[k + 1], r, claim);
    GivingUpRetires(c, run, k, claim.job, claim.token);
  }

  // Whoever stages a new token, or none, for a running row is a recovery, or has the claim himself.
  lemma OnlyRecoveriesTakeRows(c: Config, s: State, b: nat, j: nat)
    requires JobsInv(s) && b in s.sessions && SessionInv(c, s, s.sessions[b]) && Committing(s.sessions[b].phase)
    requires var x := s.sessions[b];
             j in x.jobs && j in s.jobs && s.jobs[j].token.Some? && x.jobs[j].token != s.jobs[j].token
    ensures var p := s.sessions[b].phase;
            if p.Recovering? then Expired(s.jobs[j], p.readAt)
            else p.SettleReady? && s.jobs[j].token == Some(p.claim.token)
  {
  }

  lemma ClaimIsLostToARecovery(c: Config, s: State, b: nat, a: nat, claim: Claim)
    requires b in s.sessions && SessionInv(c, s, s.sessions[b]) && Committing(s.sessions[b].phase)
    requires JobsInv(s) && Holds(s, a, claim) && Holds(CommitSession(s, b), a, claim)
    requires a != b ==> Apart(s.sessions[a], s.sessions[b])
    requires claim.job in s.jobs && s.jobs[claim.job].token == Some(claim.token)
    requires var t := CommitSession(s, b); claim.job in t.jobs && t.jobs[claim.job].token != Some(claim.token)
    ensures TakesBack(s, CommitSession(s, b), b, claim)
  {
    hide JobsInv, SessionInv;
    OnlyRecoveriesTakeRows(c, s, b, claim.job);
  }

  lemma ClaimsAreApart(s: State, a: nat, b: nat, claim: Claim)
    requires ApartInv(s) && Holds(s, a, claim) && b in s.sessions
    ensures a in s.sessions && (a != b ==> Apart(s.sessions[a], s.sessions[b]))
  {
  }

  lemma ClaimsAreLostToRecoveries(c: Config, s: State, st: Step, a: nat, claim: Claim)
    requires Inv(c, s) && Enabled(c, s, st) && Holds(s, a, claim) && Holds(Apply(c, s, st), a, claim)
    requires claim.job in s.jobs && s.jobs[claim.job].token == Some(claim.token)
    requires var t := Apply(c, s, st); claim.job in t.jobs && t.jobs[claim.job].token != Some(claim.token)
    ensures st.Commit? && TakesBack(s, Apply(c, s, st), st.a, claim)
  {
    hide Holds, JobsInv, EventsInv, QueueInv, CapInv, ApartInv, WakeInv, SessionInv, TakesBack;
    if st.Commit? {
      assert SessionInv(c, s, s.sessions[st.a]);
      ClaimsAreApart(s, a, st.a, claim);
      ClaimIsLostToARecovery(c, s, st.a, a, claim);
    } else if st.Create? {
      CreateMovesRows(s, st.owner, st.maxRetries, st.at);
    } else {
      OnlyCommitsWriteRows(c, s, st);
    }
  }

  lemma OnlyCommitsGrant(c: Config, s: State, st: Step, a: nat, claim: Claim)
    requires Enabled(c, s, st) && !Holds(s, a, claim) && Holds(Apply(c, s, st), a, claim)
    ensures st == Commit(a) && s.sessions[a].phase.ClaimReady? && s.sessions[a].phase.granted == Some(claim)
  {
  }

  lemma NewClaimsAreCurrent(c: Config, s: State, st: Step, a: nat, claim: Claim)
    requires Inv(c, s) && Enabled(c, s, st) && !Holds(s, a, claim) && Holds(Apply(c, s, st), a, claim)
    ensures var t := Apply(c, s, st); claim.job in t.jobs && t.jobs[claim.job].token == Some(claim.token)
  {
    OnlyCommitsGrant(c, s, st, a, claim);
    hide Holds, JobsInv, EventsInv, QueueInv, CapInv, ApartInv, WakeInv;
    assert SessionInv(c, s, s.sessions[a]);
  }

  lemma StepKeepsClaimCurrent(c: Config, s: State, t: State, a: nat, claim: Claim)
    requires Inv(c, s) && Next(c, s, t) && Holds(t, a, claim) && claim.job in t.jobs
    requires Holds(s, a, claim) ==> claim.job in s.jobs && s.jobs[claim.job].token == Some(claim.token)
    ensures t.jobs[claim.job].token == Some(claim.token) || exists r | r in s.sessions :: TakesBack(s, t, r, claim)
  {
    var st :| Enabled(c, s, st) && t == Apply(c, s, st);
    hide Inv, Enabled, Apply, TakesBack, Holds;
    if !Holds(s, a, claim) {
      NewClaimsAreCurrent(c, s, st, a, claim);
    } else if t.jobs[claim.job].token != Some(claim.token) {
      ClaimsAreLostToRecoveries(c, s, st, a, claim);
      RecoveriesAreSessions(s, t, st.a, claim);
    }
  }

  lemma RecoveriesAreSessions(s: State, t: State, r: nat, claim: Claim)
    requires TakesBack(s, t, r, claim)
    ensures r in s.sessions
  {
  }

  /**
   A worker's claim is the row's, as long as the worker holds it, exactly if no
   recovery has committed meanwhile that read a clock after the end of its lease.
   */
  lemma {:induction false} CurrentUnlessTakenBack(c: Config, run: seq<State>, i: nat, a: nat, claim: Claim)
    requires IsRun(c, run) && i < |run| && Holds(run[i], a, claim)
    ensures claim.job in run[i].jobs
    ensures run[i].jobs[claim.job].token == Some(claim.token) <==> !exists k | 0 <= k < i :: TakenBack(run, k, claim)
  {
    hide IsRun, Next, Holds, TakenBack, Retired;
    CurrentWorkersAgreeWithTheRow(c, run, i, a, claim);
    if k :| 0 <= k < i && TakenBack(run, k, claim) {
      TakingBackRetires(c, run, k, claim);
      RetiredForGood(c, run, k + 1, i, claim.token);
      RetiredIsNotCurrent(run[i], claim);
    } else {
      NotTakenBack(c, run, i, a, claim);
    }
  }

  lemma RetiredIsNotCurrent(s: State, claim: Claim)
    requires Retired(s, claim.token) && claim.job in s.jobs
    ensures s.jobs[claim.job].token != Some(claim.token)
  {
  }

  lemma {:induction false} NotTakenBack(c: Config, run: seq<State>, i: nat, a: nat, claim: Claim)
    requires IsRun(c, run) && i < |run| && Holds(run[i], a, claim) && claim.job in run[i].jobs
    requires forall k | 0 <= k < i :: !TakenBack(run, k, claim)
    ensures run[i].jobs[claim.job].token == Some(claim.token)
  {
    hide Next, TakesBack;
    NoClaimsAtFirst(c, run, a, claim);
    RunStep(c, run, i - 1);
    assert !TakenBack(run, i - 1, claim);
    if Holds(run[i - 1], a, claim) {
      CurrentWorkersAgreeWithTheRow(c, run, i - 1, a, claim);
      NotTakenBack(c, run, i - 1, a, claim);
    }
    StepKeepsClaimCurrent(c, run[i - 1], run[i], a, claim);
  }

  lemma NoClaimsAtFirst(c: Config, run: seq<State>, a: nat, claim: Claim)
    requires IsRun(c, run)
    ensures !Holds(run[0], a, claim)
  {
  }

  /** Executions of one job overlap only after one of the claims was taken back, its lease being over. */
  lemma OverlapsFollowATakeover(c: Config, run: seq<State>, i: nat, a: nat, b: nat, x: Claim, y: Claim)
    requires IsRun(c, run) && i < |run| && a != b && x.job == y.job
    requires Holds(run[i], a, x) && Holds(run[i], b, y)
    ensures exists k | 0 <= k < i :: TakenBack(run, k, x) || TakenBack(run, k, y)
  {
    hide IsRun, TakenBack, Holds, Retired;
    OverlappingClaimsAreFenced(c, run, i, a, b, x, y);
    CurrentUnlessTakenBack(c, run, i, a, x);
    CurrentUnlessTakenBack(c, run, i, b, y);
    if Retired(run[i], x.token) {
      RetiredIsNotCurrent(run[i], x);
    } else {
      RetiredIsNotCurrent(run[i], y);
    }
  }
}
