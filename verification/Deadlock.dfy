/**
 Who waits for whom.  Transactions of the protocol can deadlock, but only around the
 recovery, and only the loss of one of them ends it.
 */
module Deadlock {
  import opened Wrappers
  import opened JobState
  import opened JobRows
  import opened Protocol
  import opened ProtocolInvariant
  import opened ProtocolRuns
  import opened Cluster
  import opened Selection

  // The next statement of session `a` waits for a lock that session `b` holds.
  ghost predicate Waits(s: State, a: nat, b: nat) {
    && a in s.sessions && b in s.sessions && a != b
    && var y := s.sessions[b];
       match s.sessions[a].phase
       case Received(m) => m in s.queue && s.queue[m].job in s.jobs && s.jobs[s.queue[m].job].owner in y.owners
       case ClaimOwner(m) => m in s.queue && s.queue[m].job in y.rows
       case PubEvent(e) => e in s.events && s.events[e].job in y.rows
       case PubFailed(e, _) => e in s.events && s.events[e].publishedAt.None? && e in y.evs
       case Executing(_, claim, _) => claim.job in y.rows
       case Settling(_, claim, v) =>
         claim.job in y.rows && claim.job in s.jobs && Matches(s.jobs[claim.job], VerdictUpdate(claim, v))
       case Recovering(todo, None, _) => exists j | NextToRecover(s, todo, j) :: s.jobs[j].owner in y.owners
       case _ => false
  }

  predicate IsRecovery(s: State, a: nat) {
    a in s.sessions && s.sessions[a].phase.Recovering?
  }

  // A worker that holds an owner and goes for the job.
  predicate IsClaimant(s: State, a: nat) {
    a in s.sessions && s.sessions[a].phase.ClaimOwner?
  }

  ghost predicate WaitsAmong(s: State, a: nat, stuck: set<nat>) {
    exists b | b in stuck :: Waits(s, a, b)
  }

  // Every session of `stuck` waits for another one of them.
  ghost predicate Deadlocked(s: State, stuck: set<nat>) {
    stuck != {} && forall a {:trigger WaitsAmong(s, a, stuck)} | a in stuck :: WaitsAmong(s, a, stuck)
  }

  // Recovery `r` needs an owner that recovery `q` holds, or a worker that waits for a row of `q`.
  ghost predicate Blocks(s: State, r: nat, q: nat) {
    || Waits(s, r, q)
    || exists w | w in s.sessions :: IsClaimant(s, w) && Waits(s, r, w) && Waits(s, w, q)
  }

  ghost predicate BlockedAmong(s: State, r: nat, recoveries: set<nat>) {
    IsRecovery(s, r) && exists q | q in recoveries :: Blocks(s, r, q)
  }

  ghost predicate Tangled(s: State, recoveries: set<nat>) {
    && recoveries != {}
    && forall r {:trigger BlockedAmong(s, r, recoveries)} | r in recoveries :: BlockedAmong(s, r, recoveries)
  }

  // What is waited for, by whom, and who may wait himself while he has it.
  lemma WaitingHolders(c: Config, s: State, a: nat, b: nat, d: nat)
    requires Inv(c, s) && Waits(s, a, b) && Waits(s, b, d)
    ensures IsRecovery(s, b) || (IsClaimant(s, b) && (IsRecovery(s, a) || s.sessions[a].phase.Received?))
            || (s.sessions[b].phase.PubEvent? && s.sessions[a].phase.PubFailed?)
  {
    assert SessionInv(c, s, s.sessions[b]);
  }

  /** Of any three waits in a row, the second or the third is by a recovery: without one, no wait is circular. */
  lemma WaitsLeadToARecovery(c: Config, s: State, a: nat, b: nat, d: nat, f: nat)
    requires Inv(c, s) && Waits(s, a, b) && Waits(s, b, d) && Waits(s, d, f)
    ensures IsRecovery(s, b) || IsRecovery(s, d)
  {
    hide Inv, Waits;
    WaitingHolders(c, s, a, b, d);
    WaitingHolders(c, s, b, d, f);
  }

  lemma WaiterAmong(s: State, stuck: set<nat>, a: nat) returns (b: nat)
    requires Deadlocked(s, stuck) && a in stuck
    ensures b in stuck && Waits(s, a, b)
  {
    assert WaitsAmong(s, a, stuck);
    b :| b in stuck && Waits(s, a, b);
  }

  // Within a deadlock, a recovery is blocked by a recovery, directly or through one worker.
  lemma RecoveriesBlockEachOther(c: Config, s: State, stuck: set<nat>, r: nat) returns (q: nat)
    requires Inv(c, s) && Deadlocked(s, stuck) && r in stuck && IsRecovery(s, r)
    ensures q in stuck && IsRecovery(s, q) && Blocks(s, r, q)
  {
    hide Inv, Waits;
    var b := WaiterAmong(s, stuck, r);
    var d := WaiterAmong(s, stuck, b);
    var f := WaiterAmong(s, stuck, d);
    WaitingHolders(c, s, r, b, d);
    WaitingHolders(c, s, b, d, f);
    if IsRecovery(s, b) {
      q := b;
    } else {
      q := d;
      ClaimantsAreSessions(s, b);
    }
  }

  lemma ClaimantsAreSessions(s: State, w: nat)
    requires IsClaimant(s, w)
    ensures w in s.sessions && !IsRecovery(s, w) && !s.sessions[w].phase.Received? && !s.sessions[w].phase.PubFailed?
  {
  }

  lemma DeadlockIsTangled(c: Config, s: State, stuck: set<nat>)
    requires Inv(c, s) && Deadlocked(s, stuck)
    ensures Tangled(s, set r | r in stuck && IsRecovery(s, r))
  {
    hide Inv, Waits, Blocks;
    var recoveries := set r | r in stuck && IsRecovery(s, r);
    var a :| a in stuck;
    var b := WaiterAmong(s, stuck, a);
    var d := WaiterAmong(s, stuck, b);
    var f := WaiterAmong(s, stuck, d);
    WaitsLeadToARecovery(c, s, a, b, d, f);
    assert b in recoveries || d in recoveries;
    forall r | r in recoveries ensures BlockedAmong(s, r, recoveries) {
      var q := RecoveriesBlockEachOther(c, s, stuck, r);
      assert q in recoveries;
    }
  }

  // A session that waits and does nothing else; a handler may also end without another look.
  ghost predicate Stuck(s: State, a: nat, b: nat) {
    Waits(s, a, b) && !s.sessions[a].phase.Executing?
  }

  // A deadlock of sessions none of which could do anything else.
  ghost predicate StuckAmong(s: State, a: nat, stuck: set<nat>) {
    exists b | b in stuck :: Stuck(s, a, b)
  }

  ghost predicate Knot(s: State, stuck: set<nat>) {
    stuck != {} && forall a {:trigger StuckAmong(s, a, stuck)} | a in stuck :: StuckAmong(s, a, stuck)
  }

  lemma TangledIsAKnot(s: State, recoveries: set<nat>)
    requires Tangled(s, recoveries)
    ensures Knot(s, recoveries
                    + set w | w in s.sessions && IsClaimant(s, w) && exists q | q in recoveries :: Waits(s, w, q))
  {
    hide Waits;
    var workers := set w | w in s.sessions && IsClaimant(s, w) && exists q | q in recoveries :: Waits(s, w, q);
    forall w | w in workers ensures StuckAmong(s, w, recoveries + workers) {
      var q :| q in recoveries && Waits(s, w, q);
      assert Stuck(s, w, q);
    }
    forall a | a in recoveries ensures StuckAmong(s, a, recoveries + workers) {
      assert BlockedAmong(s, a, recoveries);
      var q :| q in recoveries && Blocks(s, a, q);
      if Waits(s, a, q) {
        assert Stuck(s, a, q);
      } else {
        var w :| w in s.sessions && IsClaimant(s, w) && Waits(s, a, w) && Waits(s, w, q);
        assert w in workers && Stuck(s, a, w);
      }
    }
  }

  lemma KnotIsADeadlock(s: State, stuck: set<nat>)
    requires Knot(s, stuck)
    ensures Deadlocked(s, stuck)
  {
    hide Waits;
    forall a | a in stuck ensures WaitsAmong(s, a, stuck) {
      assert StuckAmong(s, a, stuck);
      var b :| b in stuck && Stuck(s, a, b);
    }
  }

  /**
   When transactions deadlock: exactly when there are recoveries each of which is
   blocked by one of them, either because that one holds the owner it needs, or
   because a worker holds the owner and waits for a row of that one.  A single
   recovery and a single worker are enough, and so are two recoveries.
   */
  lemma DeadlocksAreTangledRecoveries(c: Config, run: seq<State>, i: nat)
    requires IsRun(c, run) && i < |run|
    ensures (exists stuck :: Deadlocked(run[i], stuck)) <==> (exists recoveries :: Tangled(run[i], recoveries))
    ensures (exists stuck :: Deadlocked(run[i], stuck)) <==> (exists stuck :: Knot(run[i], stuck))
  {
    ReachableKeepsInv(c, run, i);
    hide Inv, Deadlocked, Tangled, Knot, IsRun;
    if stuck :| Deadlocked(run[i], stuck) {
      DeadlockIsTangled(c, run[i], stuck);
    }
    if recoveries :| Tangled(run[i], recoveries) {
      TangledIsAKnot(run[i], recoveries);
    }
    if stuck :| Knot(run[i], stuck) {
      KnotIsADeadlock(run[i], stuck);
    }
  }

  /* ----- Deadlocks last ----- */

  predicate Loses(st: Step, a: nat) {
    st == Crash(a) || st == Raise(a)
  }

  lemma TheNextRowIsOne(s: State, todo: set<nat>, j: nat, k: nat)
    requires NextToRecover(s, todo, j) && NextToRecover(s, todo, k)
    ensures j == k
  {
  }

  /** Whoever waits can do nothing but be lost; only a handler may also end without another look. */
  lemma StuckSessionsCannotMove(c: Config, s: State, a: nat, b: nat, st: Step)
    requires Waits(s, a, b) && Enabled(c, s, st) && ActorOf(st) == Some(a)
    ensures Loses(st, a) || (s.sessions[a].phase.Executing? && st.Execute? && st.execute.Finish?)
  {
    if st.Recover? && st.recover.RecoverOne? {
      var todo := s.sessions[a].phase.todo;
      var j :| NextToRecover(s, todo, j) && s.jobs[j].owner in s.sessions[b].owners;
      TheNextRowIsOne(s, todo, j, st.recover.j);
    }
  }

  // The session waits for somebody.
  ghost predicate IsHeldUp(s: State, a: nat) {
    exists b | b in s.sessions :: Waits(s, a, b)
  }

  // The next statement of an open session that still has one: not of one that raised, nor of a cancel with
  // nothing to write.
  predicate HasWork(s: State, a: nat) {
    && a in s.sessions
    && var p := s.sessions[a].phase;
       !p.Stranded? && (p.CancelJob? && p.j in s.jobs ==> CancelUpdate(s.jobs[p.j]).Some?)
  }

  ghost predicate CanMove(c: Config, s: State, a: nat) {
    exists st :: Enabled(c, s, st) && IsMove(st, a)
  }

  predicate IsMove(st: Step, a: nat) {
    ActorOf(st) == Some(a) && !Loses(st, a)
  }

  lemma LockedEventsExist(c: Config, s: State, b: nat, e: nat)
    requires SessionsInv(c, s) && b in s.sessions && e in s.sessions[b].evs
    ensures e in s.events
  {
    assert SessionInv(c, s, s.sessions[b]);
  }

  lemma PublishersMove(c: Config, s: State, a: nat) returns (st: Step)
    requires SessionsInv(c, s) && a in s.sessions && Publishing(s.sessions[a].phase) && !IsHeldUp(s, a)
    ensures Enabled(c, s, st) && IsMove(st, a)
  {
    hide ClaimInv, StampStaged, SentFor, ClaimEnabled, ExecuteEnabled, RecoverEnabled, CancelEnabled;
    assert SessionInv(c, s, s.sessions[a]);
    assert forall b | b in s.sessions && b != a :: !Waits(s, a, b);
    match s.sessions[a].phase
    case PubEvent(e) => st := Publish(a, LockDispatchedJob);
    case PubJob(e) =>
      var j := s.events[e].job;
      st := Publish(a, if j in s.jobs && s.jobs[j].status in {Pending, Queued} then Prepare(0) else Discard(0));
    case PubSend(_) => st := Send(a);
    case PubSent(_, _) => st := Publish(a, Stamp(0));
    case PubReady(_, _) => st := Commit(a);
    case PubFailed(e, _) =>
      st := RecordFailure(a, "");
      forall b | b in s.sessions && b != a && e in s.sessions[b].evs ensures e in s.events {
        LockedEventsExist(c, s, b, e);
      }
  }

  lemma ClaimantsMove(c: Config, s: State, a: nat) returns (st: Step)
    requires a in s.sessions && Undecided(s.sessions[a].phase) && ClaimantInv(c, s, s.sessions[a])
    requires s.sessions[a].phase.m in s.queue && !s.sessions[a].phase.Stranded? && !IsHeldUp(s, a)
    ensures Enabled(c, s, st) && IsMove(st, a)
  {
    hide RunStaged, NewEvents, Woken, RunningOf, NothingStaged;
    hide PublishEnabled, ExecuteEnabled, RecoverEnabled, CancelEnabled;
    assert forall b | b in s.sessions && b != a :: !Waits(s, a, b);
    var m := s.sessions[a].phase.m;
    var j := s.queue[m].job;
    match s.sessions[a].phase
    case Received(_) => st := ToClaim(a, if j in s.jobs then LockOwner else DropMissing);
    case ClaimOwner(_) => st := ToClaim(a, LockRow);
    case ClaimJob(_) =>
      var job := s.jobs[j];
      st := ToClaim(a, if job.status != Queued then DropNotQueued
                       else if job.attempts + 1 > MaxTotalAttempts(job.maxRetries) then FailExhausted("", 0)
                       else CountRunning);
    case ClaimCounted(_, running) =>
      st := ToClaim(a, if running >= c.maxRunningPerUser then Defer(0) else Run("", 0));
    case ClaimReady(_, _) => st := Commit(a);
  }

  lemma ExecutorsMove(c: Config, s: State, a: nat) returns (st: Step)
    requires a in s.sessions && Granted(s.sessions[a].phase) && !IsHeldUp(s, a)
    ensures Enabled(c, s, st) && IsMove(st, a)
    ensures s.sessions[a].phase.Executing? ==> st == Execute(a, CheckCancel)
  {
    hide Matches;
    assert forall b | b in s.sessions && b != a :: !Waits(s, a, b);
    match s.sessions[a].phase
    case Executing(_, _, _) => st := Execute(a, CheckCancel);
    case Settling(_, claim, v) =>
      var matched := claim.job in s.jobs && Matches(s.jobs[claim.job], VerdictUpdate(claim, v));
      st := Execute(a, if matched then SettleUpdate(0) else SettleStale);
    case SettleRequeued(_, _, _) => st := Execute(a, SettleEvent(0, 0));
    case SettleReady(_, _, _) => st := Commit(a);
  }

  lemma NextRowExists(s: State, todo: set<nat>) returns (j: nat)
    requires todo != {} && todo <= s.jobs.Keys
    ensures NextToRecover(s, todo, j)
  {
    var keys := map k | k in todo :: LeaseKey(s.jobs[k], k);
    LeastExists(keys, todo);
    j :| j in todo && forall k | k in todo :: AtMost(keys[j], keys[k]);
  }

  lemma RecoveriesMove(c: Config, s: State, a: nat) returns (st: Step)
    requires JobsInv(s) && IsRecovery(s, a) && !IsHeldUp(s, a)
    requires var x := s.sessions[a]; RecoveryInv(s, x, x.phase.todo, x.phase.requeued, x.phase.readAt)
    ensures Enabled(c, s, st) && IsMove(st, a)
  {
    hide NextToRecover, RecoveryStaged, NewEvents, PublishEnabled, ExecuteEnabled, ClaimEnabled, CancelEnabled;
    var p := s.sessions[a].phase;
    if p.requeued.Some? {
      st := Recover(a, RecoverEvent(0));
    } else if p.todo == {} {
      st := Commit(a);
    } else {
      var j := NextRowExists(s, p.todo);
      assert j in p.todo && j in s.jobs && s.jobs[j].token.Some? by {
        assert NextToRecover(s, p.todo, j);
      }
      forall b | b in s.sessions && b != a ensures s.jobs[j].owner !in s.sessions[b].owners {
        assert !Waits(s, a, b);
      }
      st := Recover(a, RecoverOne(j, 0));
    }
  }

  lemma OthersMove(c: Config, s: State, a: nat) returns (st: Step)
    requires HasWork(s, a)
    requires var x := s.sessions[a]; x.phase.Handled? || ((x.phase.CancelJob? || x.phase.CancelReady?) && CancellerInv(s, x))
    ensures Enabled(c, s, st) && IsMove(st, a)
  {
    hide StagedOnly;
    match s.sessions[a].phase
    case Handled(_) => st := Ack(a);
    case CancelJob(_) => st := ApiCancel(a, WriteCancel(0));
    case CancelReady(_) => st := Commit(a);
  }

  lemma UnheldSessionsMove(c: Config, s: State, a: nat) returns (st: Step)
    requires TablesInv(c, s) && SessionsInv(c, s) && HasWork(s, a) && !IsHeldUp(s, a)
    ensures Enabled(c, s, st) && IsMove(st, a)
    ensures s.sessions[a].phase.Executing? ==> st == Execute(a, CheckCancel)
  {
    hide Enabled, IsHeldUp, CancelUpdate, ClaimInv, ClaimantInv, CancellerInv, RecoveryInv, ExecutorInv, PublisherInv;
    hide JobsInv, EventsInv, CapInv, ApartInv;
    assert SessionInv(c, s, s.sessions[a]);
    var p := s.sessions[a].phase;
    if Publishing(p) {
      st := PublishersMove(c, s, a);
    } else if Undecided(p) {
      st := ClaimantsMove(c, s, a);
    } else if Granted(p) {
      st := ExecutorsMove(c, s, a);
    } else if p.Recovering? {
      st := RecoveriesMove(c, s, a);
    } else {
      st := OthersMove(c, s, a);
    }
  }

  lemma HeldUpSessionsDoNot(c: Config, s: State, a: nat, st: Step)
    requires IsHeldUp(s, a) && Enabled(c, s, st) && IsMove(st, a)
    ensures a in s.sessions && s.sessions[a].phase.Executing? && st.Execute? && st.execute.Finish?
  {
    hide Enabled;
    var b :| b in s.sessions && Waits(s, a, b);
    StuckSessionsCannotMove(c, s, a, b, st);
  }

  /**
   Nothing but such a wait holds a session up: in every reachable state, one that has
   work left can do its next statement if and only if it waits for nobody.  While its
   handler runs, that is the question whether to stop.
   */
  lemma OnlyWaitsHoldUp(c: Config, run: seq<State>, i: nat, a: nat)
    requires IsRun(c, run) && i < |run| && HasWork(run[i], a)
    ensures if run[i].sessions[a].phase.Executing?
            then Enabled(c, run[i], Execute(a, CheckCancel)) <==> !IsHeldUp(run[i], a)
            else CanMove(c, run[i], a) <==> !IsHeldUp(run[i], a)
  {
    var s := run[i];
    ReachableKeepsInv(c, run, i);
    hide TablesInv, WakeInv, SessionsInv, Enabled, IsRun, IsHeldUp, HasWork;
    assert a in s.sessions by {
      assert HasWork(s, a);
    }
    if !IsHeldUp(s, a) {
      var st := UnheldSessionsMove(c, s, a);
    } else if s.sessions[a].phase.Executing? {
      if Enabled(c, s, Execute(a, CheckCancel)) {
        HeldUpSessionsDoNot(c, s, a, Execute(a, CheckCancel));
      }
    } else if st :| Enabled(c, s, st) && IsMove(st, a) {
      HeldUpSessionsDoNot(c, s, a, st);
    }
  }

  lemma SparedKeepsTheNextRow(c: Config, s: State, t: State, a: nat, j: nat)
    requires a in s.sessions && SessionInv(c, s, s.sessions[a]) && s.sessions[a].phase.Recovering? && Spared(s, t, a)
    requires NextToRecover(s, s.sessions[a].phase.todo, j)
    ensures NextToRecover(t, s.sessions[a].phase.todo, j)
  {
  }

  // What a wait depends on has not changed.
  lemma SparedKeepsWaits(c: Config, s: State, t: State, a: nat, b: nat)
    requires Inv(c, s) && Waits(s, a, b) && Spared(s, t, a) && Spared(s, t, b)
    requires forall j | j in s.jobs :: j in t.jobs && t.jobs[j].owner == s.jobs[j].owner
    ensures Waits(t, a, b)
  {
    hide CapInv, ApartInv, JobsInv, WakeInv;
    var x := s.sessions[a];
    assert SessionInv(c, s, x) && SessionInv(c, s, s.sessions[b]);
    if x.phase.Recovering? {
      var j :| NextToRecover(s, x.phase.todo, j) && s.jobs[j].owner in s.sessions[b].owners;
      SparedKeepsTheNextRow(c, s, t, a, j);
    }
  }

  lemma OthersKeepWaits(c: Config, s: State, a: nat, b: nat, st: Step)
    requires Inv(c, s) && Waits(s, a, b) && Enabled(c, s, st) && ActorOf(st) != Some(a) && ActorOf(st) != Some(b)
    ensures Waits(Apply(c, s, st), a, b)
  {
    hide Waits, Inv, Spared;
    OthersSpareALockHolder(c, s, st, a);
    OthersSpareALockHolder(c, s, st, b);
    LabelMovesRows(c, s, st);
    SparedKeepsWaits(c, s, Apply(c, s, st), a, b);
  }

  lemma KnotsKeepTheirWaits(c: Config, s: State, stuck: set<nat>, st: Step, a: nat, b: nat)
    requires Inv(c, s) && Knot(s, stuck) && Enabled(c, s, st) && forall l | l in stuck :: !Loses(st, l)
    requires a in stuck && b in stuck && Stuck(s, a, b)
    ensures Stuck(Apply(c, s, st), a, b)
  {
    hide Inv, Enabled, Apply, Waits;
    assert StuckAmong(s, b, stuck);
    var d :| d in stuck && Stuck(s, b, d);
    if ActorOf(st) == Some(a) {
      StuckSessionsCannotMove(c, s, a, b, st);
    } else if ActorOf(st) == Some(b) {
      StuckSessionsCannotMove(c, s, b, d, st);
    } else {
      OthersKeepWaits(c, s, a, b, st);
      StuckSessionsAreOpen(s, a, b);
      StaysInPhase(c, s, st, a);
    }
  }

  lemma StuckSessionsAreOpen(s: State, a: nat, b: nat)
    requires Stuck(s, a, b)
    ensures a in s.sessions
  {
  }

  lemma StaysInPhase(c: Config, s: State, st: Step, a: nat)
    requires Inv(c, s) && Enabled(c, s, st) && ActorOf(st) != Some(a) && a in s.sessions
    ensures a in Apply(c, s, st).sessions && Apply(c, s, st).sessions[a] == s.sessions[a]
  {
    OthersSpareALockHolder(c, s, st, a);
  }

  /** A deadlock lasts, whatever the others do, until one of its sessions is lost. */
  lemma DeadlocksLast(c: Config, s: State, stuck: set<nat>, st: Step)
    requires Inv(c, s) && Knot(s, stuck) && Enabled(c, s, st) && forall l | l in stuck :: !Loses(st, l)
    ensures Knot(Apply(c, s, st), stuck)
  {
    hide Inv, Enabled, Apply, Stuck;
    forall a | a in stuck ensures StuckAmong(Apply(c, s, st), a, stuck) {
      assert StuckAmong(s, a, stuck);
      var b :| b in stuck && Stuck(s, a, b);
      KnotsKeepTheirWaits(c, s, stuck, st, a, b);
    }
  }
}
