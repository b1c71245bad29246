/** Every step of the dispatch protocol keeps the invariant. */
module ProtocolSteps {
  import opened Wrappers
  import opened JobState
  import opened Outbox
  import opened Protocol
  import opened ProtocolInvariant

  /* ----- Statements: one session changes, the tables and the queue do not ----- */

  // Giving up a message without a commit is allowed only when its job does not need it.
  ghost predicate MayDecide(s: State, a: nat, x: Session) {
    a in s.sessions && Undecided(s.sessions[a].phase) && !Undecided(x.phase) ==>
      && MessageOf(s.sessions[a].phase).Some?
      && var m := MessageOf(s.sessions[a].phase).value;
         && m in s.queue && s.queue[m].job in s.sessions[a].rows
         && (s.queue[m].job in s.jobs ==> s.jobs[s.queue[m].job].status != Queued)
  }

  ghost predicate LocalChange(s: State, a: nat, x: Session) {
    && MessageOf(x.phase) == (if a in s.sessions then MessageOf(s.sessions[a].phase) else None)
    && (forall b | b in s.sessions && b != a :: Apart(x, s.sessions[b]) && Apart(s.sessions[b], x))
    && MayDecide(s, a, x)
  }

  lemma LocalKeepsLive(s: State, a: nat, x: Session, m: nat)
    requires QueueInv(s) && LocalChange(s, a, x) && Live(s, m)
    requires && a in s.sessions && Undecided(s.sessions[a].phase)
             && s.queue[m].job in s.sessions[a].rows && s.queue[m].job in s.jobs ==>
               s.jobs[s.queue[m].job].status == Queued
    ensures Live(With(s, a, x), m)
  {
  }

  lemma LocalKeepsWake(s: State, a: nat, x: Session)
    requires QueueInv(s) && LocalChange(s, a, x) && WakeInv(s)
    ensures WakeInv(With(s, a, x))
  {
    var t := With(s, a, x);
    forall j | j in t.jobs ensures Awaited(t, j) {
      assert Awaited(s, j);
      if s.jobs[j].status == Queued && !HasUnpublished(s.events, j) {
        var m :| m in s.queue && LiveFor(s, m, j);
        LocalKeepsLive(s, a, x, m);
        assert LiveFor(t, m, j);
      }
    }
  }

  lemma LocalLeavesOthers(c: Config, s: State, a: nat, x: Session, b: nat)
    requires Inv(c, s) && LocalChange(s, a, x) && b in s.sessions && b != a
    ensures SessionInv(c, With(s, a, x), s.sessions[b])
  {
    var t, y := With(s, a, x), s.sessions[b];
    forall m | m in s.queue && s.queue[m].job in y.rows && Live(s, m) ensures Live(t, m) {
      if a in s.sessions {
        assert Apart(s.sessions[a], y);
      }
      LocalKeepsLive(s, a, x, m);
    }
    UndisturbedKeepsSession(c, s, t, y);
  }

  lemma LocalKeepsTables(c: Config, s: State, a: nat, x: Session)
    requires TablesInv(c, s) && LocalChange(s, a, x)
    ensures TablesInv(c, With(s, a, x))
  {
  }

  lemma LocalKeepsSessions(c: Config, s: State, a: nat, x: Session)
    requires Inv(c, s) && LocalChange(s, a, x) && SessionInv(c, With(s, a, x), x)
    ensures SessionsInv(c, With(s, a, x))
  {
    var t := With(s, a, x);
    forall b | b in t.sessions ensures SessionInv(c, t, t.sessions[b]) {
      if b != a {
        LocalLeavesOthers(c, s, a, x, b);
      }
    }
  }

  lemma LocalKeepsInv(c: Config, s: State, a: nat, x: Session)
    requires Inv(c, s) && LocalChange(s, a, x) && SessionInv(c, With(s, a, x), x)
    ensures Inv(c, With(s, a, x))
  {
    LocalKeepsTables(c, s, a, x);
    LocalKeepsWake(s, a, x);
    LocalKeepsSessions(c, s, a, x);
  }

  lemma RaiseKeepsInv(c: Config, s: State, a: nat)
    requires Inv(c, s) && a in s.sessions && MessageOf(s.sessions[a].phase).Some?
    ensures Inv(c, With(s, a, Idle(Stranded(MessageOf(s.sessions[a].phase).value))))
  {
    var x := Idle(Stranded(MessageOf(s.sessions[a].phase).value));
    assert SessionInv(c, With(s, a, x), x);
    LocalKeepsInv(c, s, a, x);
  }

  lemma PublishStatementStaysApart(s: State, a: nat, op: PublishOp)
    requires ApartInv(s) && PublishEnabled(s, a, op) && !op.LockEvent?
    requires Publishing(s.sessions[a].phase) && PublisherInv(s, s.sessions[a])
    requires forall b, e | b in s.sessions && e in s.sessions[b].events && e in s.events :: e in s.sessions[b].evs
    ensures var y := PublishSession(s, a, op);
            forall b | b in s.sessions && b != a :: Apart(y, s.sessions[b]) && Apart(s.sessions[b], y)
  {
    var x, y := s.sessions[a], PublishSession(s, a, op);
    assert y.evs <= x.evs && y.owners <= x.owners;
    forall b | b in s.sessions && b != a ensures Apart(y, s.sessions[b]) && Apart(s.sessions[b], y) {
      assert Apart(x, s.sessions[b]);
    }
  }

  lemma PublishStatementIsLocal(s: State, a: nat, op: PublishOp)
    requires ApartInv(s) && PublishEnabled(s, a, op)
    requires a in s.sessions ==> Publishing(s.sessions[a].phase) && PublisherInv(s, s.sessions[a])
    requires forall b, e | b in s.sessions && e in s.sessions[b].events && e in s.events :: e in s.sessions[b].evs
    ensures LocalChange(s, a, PublishSession(s, a, op))
  {
    if !op.LockEvent? {
      PublishStatementStaysApart(s, a, op);
    }
  }

  lemma PublishStatementIsSound(s: State, a: nat, op: PublishOp)
    requires EventsInv(s) && QueueInv(s) && PublishEnabled(s, a, op)
    requires LocalChange(s, a, PublishSession(s, a, op))
    requires a in s.sessions ==> Publishing(s.sessions[a].phase) && PublisherInv(s, s.sessions[a])
    ensures var y := PublishSession(s, a, op); Publishing(y.phase) && PublisherInv(With(s, a, y), y)
  {
    if op.Stamp? {
      LocalKeepsLive(s, a, PublishSession(s, a, op), s.sessions[a].phase.sent);
    }
  }

  // Staged outbox rows are either new, with identifiers already handed out, or locked.
  lemma StagedEventsAreAccountedFor(c: Config, s: State, b: nat)
    requires EventsInv(s) && b in s.sessions && PhaseInv(c, s, s.sessions[b])
    ensures forall e | e in s.sessions[b].events :: e < s.nextId && (e in s.events ==> e in s.sessions[b].evs)
  {
  }

  lemma AllStagedEventsAreAccountedFor(c: Config, s: State)
    requires EventsInv(s) && SessionsInv(c, s)
    ensures forall b, e | b in s.sessions && e in s.sessions[b].events ::
              e < s.nextId && (e in s.events ==> e in s.sessions[b].evs)
  {
    forall b | b in s.sessions
      ensures forall e | e in s.sessions[b].events :: e < s.nextId && (e in s.events ==> e in s.sessions[b].evs)
    {
      assert SessionInv(c, s, s.sessions[b]);
      StagedEventsAreAccountedFor(c, s, b);
    }
  }

  lemma PublishStatementKeepsInv(c: Config, s: State, a: nat, op: PublishOp)
    requires Inv(c, s) && PublishEnabled(s, a, op)
    ensures Inv(c, With(s, a, PublishSession(s, a, op)))
  {
    AllStagedEventsAreAccountedFor(c, s);
    assert a in s.sessions ==> SessionInv(c, s, s.sessions[a]);
    PublishStatementIsLocal(s, a, op);
    PublishStatementIsSound(s, a, op);
    LocalKeepsInv(c, s, a, PublishSession(s, a, op));
  }

  // What `EventIfAbsent` stages is new, and wakes the job.
  lemma EventIfAbsentWakes(s: State, x: Session, t: State, y: Session, j: nat, availableAt: int, at: int)
    requires EventsInv(s) && NewEvents(s, x) && !HasUnpublished(x.events, j)
    requires j in x.rows && j in s.jobs && y.rows == x.rows
    requires t.events == s.events && t.jobs == s.jobs && t.nextId > s.nextId
    requires y.events == EventIfAbsent(s, x, j, availableAt, at)
    ensures NewEvents(t, y) && Woken(t, y, j)
    ensures forall k :: HasUnpublished(x.events, k) ==> HasUnpublished(y.events, k)
    ensures forall k :: k != j && HasUnpublished(y.events, k) ==> HasUnpublished(x.events, k)
    ensures forall e | e in y.events :: e in x.events || (e == s.nextId && y.events[e].job == j)
  {
    forall e | e in x.events ensures x.events[e].job != j {
      assert !Unpublished(x.events, e, j);
    }
    if !HasUnpublished(s.events, j) {
      assert Unpublished(y.events, s.nextId, j);
    }
    forall k | HasUnpublished(x.events, k) ensures HasUnpublished(y.events, k) {
      var e :| e in x.events && Unpublished(x.events, e, k);
      assert Unpublished(y.events, e, k);
    }
    forall k | k != j && HasUnpublished(y.events, k) ensures HasUnpublished(x.events, k) {
      var e :| e in y.events && Unpublished(y.events, e, k);
      assert Unpublished(x.events, e, k);
    }
  }

  // Every identifier and token in use has been handed out.
  ghost predicate IdsBelow(s: State) {
    forall b | b in s.sessions ::
      && (forall e | e in s.sessions[b].events :: e < s.nextId)
      && (ClaimOf(s.sessions[b].phase).Some? ==> ClaimOf(s.sessions[b].phase).value.token < s.nextId)
  }

  lemma IdsAreBelow(c: Config, s: State)
    requires EventsInv(s) && SessionsInv(c, s)
    ensures IdsBelow(s)
  {
    forall b | b in s.sessions
      ensures (forall e | e in s.sessions[b].events :: e < s.nextId)
      ensures ClaimOf(s.sessions[b].phase).Some? ==> ClaimOf(s.sessions[b].phase).value.token < s.nextId
    {
      assert SessionInv(c, s, s.sessions[b]);
      StagedEventsAreAccountedFor(c, s, b);
      ClaimIdIsBelow(c, s, s.sessions[b]);
    }
  }

  lemma ClaimIdIsBelow(c: Config, s: State, x: Session)
    requires SessionInv(c, s, x)
    ensures ClaimOf(x.phase).Some? ==> ClaimOf(x.phase).value.token < s.nextId
  {
  }

  // A session that takes only free locks and fresh identifiers stays apart from the others.
  lemma StaysApart(s: State, a: nat, x: Session, y: Session)
    requires a in s.sessions && x == s.sessions[a] && ApartInv(s) && IdsBelow(s)
    requires forall o | o in y.owners && o !in x.owners :: OwnerFree(s, a, o)
    requires forall j | j in y.rows && j !in x.rows :: RowFree(s, a, j)
    requires y.evs <= x.evs && y.events.Keys <= x.events.Keys + {s.nextId}
    requires ClaimOf(y.phase).Some? ==>
               ClaimOf(y.phase) == ClaimOf(x.phase) || ClaimOf(y.phase).value.token == s.nextId
    ensures forall b | b in s.sessions && b != a :: Apart(y, s.sessions[b]) && Apart(s.sessions[b], y)
  {
    forall b | b in s.sessions && b != a ensures Apart(y, s.sessions[b]) && Apart(s.sessions[b], y) {
      assert Apart(x, s.sessions[b]);
    }
  }

  /* Claiming */

  lemma ClaimStatementStaysApart(c: Config, s: State, a: nat, op: ClaimOp)
    requires ApartInv(s) && IdsBelow(s) && ClaimEnabled(c, s, a, op)
    ensures var y := ClaimSession(c, s, a, op);
            forall b | b in s.sessions && b != a :: Apart(y, s.sessions[b]) && Apart(s.sessions[b], y)
  {
    StaysApart(s, a, s.sessions[a], ClaimSession(c, s, a, op));
  }

  lemma ClaimStatementMayDecide(c: Config, s: State, a: nat, op: ClaimOp)
    requires QueueInv(s) && ClaimEnabled(c, s, a, op) && MessageOf(s.sessions[a].phase) == Some(s.sessions[a].phase.m)
    requires ClaimantInv(c, s, s.sessions[a])
    ensures var y := ClaimSession(c, s, a, op);
            MayDecide(s, a, y) && MessageOf(y.phase) == MessageOf(s.sessions[a].phase)
  {
  }

  lemma ClaimStatementKeepsClaim(c: Config, s: State, a: nat, op: ClaimOp)
    requires JobsInv(s) && ClaimEnabled(c, s, a, op) && ClaimantInv(c, s, s.sessions[a])
    ensures var y := ClaimSession(c, s, a, op); ClaimInv(With(s, a, y), y.phase)
  {
  }

  lemma DeferKeepsPhase(c: Config, s: State, a: nat, at: int)
    requires EventsInv(s) && ClaimEnabled(c, s, a, Defer(at))
    requires ClaimantInv(c, s, s.sessions[a])
    ensures var y := ClaimSession(c, s, a, Defer(at)); ClaimantInv(c, With(s, a, y), y)
  {
    var x, y := s.sessions[a], ClaimSession(c, s, a, Defer(at));
    EventIfAbsentWakes(s, x, With(s, a, y), y, s.queue[x.phase.m].job, at + CAPACITY_DEFER_SECONDS, at);
  }

  lemma RunKeepsPhase(c: Config, s: State, a: nat, worker: string, at: int)
    requires ClaimEnabled(c, s, a, Run(worker, at)) && ClaimantInv(c, s, s.sessions[a])
    ensures var y := ClaimSession(c, s, a, Run(worker, at)); ClaimantInv(c, With(s, a, y), y)
  {
  }

  lemma ClaimStatementKeepsPhase(c: Config, s: State, a: nat, op: ClaimOp)
    requires JobsInv(s) && EventsInv(s) && ClaimEnabled(c, s, a, op)
    requires ClaimantInv(c, s, s.sessions[a])
    ensures var y := ClaimSession(c, s, a, op); PhaseInv(c, With(s, a, y), y)
  {
    hide JobsInv, EventsInv, ClaimantInv;
    if op.Defer? {
      DeferKeepsPhase(c, s, a, op.at);
    } else if op.Run? {
      RunKeepsPhase(c, s, a, op.worker, op.at);
    } else {
      OtherClaimsKeepPhase(c, s, a, op);
    }
  }

  lemma OtherClaimsKeepPhase(c: Config, s: State, a: nat, op: ClaimOp)
    requires JobsInv(s) && ClaimEnabled(c, s, a, op) && !op.Defer? && !op.Run?
    requires ClaimantInv(c, s, s.sessions[a])
    ensures var y := ClaimSession(c, s, a, op); PhaseInv(c, With(s, a, y), y)
  {
  }

  lemma ClaimStatementKeepsInv(c: Config, s: State, a: nat, op: ClaimOp)
    requires Inv(c, s) && ClaimEnabled(c, s, a, op)
    ensures Inv(c, With(s, a, ClaimSession(c, s, a, op)))
  {
    IdsAreBelow(c, s);
    assert SessionInv(c, s, s.sessions[a]);
    ClaimStatementStaysApart(c, s, a, op);
    ClaimStatementMayDecide(c, s, a, op);
    ClaimStatementKeepsClaim(c, s, a, op);
    ClaimStatementKeepsPhase(c, s, a, op);
    LocalKeepsInv(c, s, a, ClaimSession(c, s, a, op));
  }

  /* Executing and settling */

  lemma ExecuteStatementStaysApart(s: State, a: nat, op: ExecuteOp)
    requires ApartInv(s) && IdsBelow(s) && ExecuteEnabled(s, a, op)
    ensures var y := ExecuteSession(s, a, op);
            forall b | b in s.sessions && b != a :: Apart(y, s.sessions[b]) && Apart(s.sessions[b], y)
  {
    hide ApartInv, IdsBelow;
    StaysApart(s, a, s.sessions[a], ExecuteSession(s, a, op));
  }

  lemma ExecuteStatementIsLocal(s: State, a: nat, op: ExecuteOp)
    requires ApartInv(s) && IdsBelow(s) && ExecuteEnabled(s, a, op)
    ensures LocalChange(s, a, ExecuteSession(s, a, op))
  {
    hide ApartInv, IdsBelow, Apart;
    ExecuteStatementStaysApart(s, a, op);
  }

  lemma ExecuteStatementKeepsClaim(s: State, a: nat, op: ExecuteOp)
    requires ExecuteEnabled(s, a, op) && ClaimInv(s, s.sessions[a].phase)
    ensures var y := ExecuteSession(s, a, op); ClaimInv(With(s, a, y), y.phase)
  {
  }

  lemma SettleEventKeepsPhase(s: State, a: nat, availableAt: int, at: int)
    requires EventsInv(s) && ExecuteEnabled(s, a, SettleEvent(availableAt, at)) && ExecutorInv(s, s.sessions[a])
    ensures var y := ExecuteSession(s, a, SettleEvent(availableAt, at)); ExecutorInv(With(s, a, y), y)
  {
    var x, y := s.sessions[a], ExecuteSession(s, a, SettleEvent(availableAt, at));
    EventIfAbsentWakes(s, x, With(s, a, y), y, x.phase.claim.job, availableAt, at);
  }

  lemma SettleUpdateKeepsPhase(s: State, a: nat, at: int)
    requires ExecuteEnabled(s, a, SettleUpdate(at)) && ExecutorInv(s, s.sessions[a])
    requires ClaimInv(s, s.sessions[a].phase)
    ensures var y := ExecuteSession(s, a, SettleUpdate(at)); ExecutorInv(With(s, a, y), y)
  {
  }

  lemma ExecuteStatementKeepsPhase(c: Config, s: State, a: nat, op: ExecuteOp)
    requires EventsInv(s) && ExecuteEnabled(s, a, op)
    requires ExecutorInv(s, s.sessions[a]) && ClaimInv(s, s.sessions[a].phase)
    ensures var y := ExecuteSession(s, a, op); PhaseInv(c, With(s, a, y), y)
  {
    hide EventsInv, ExecutorInv, ClaimInv;
    match op
    case SettleUpdate(at) => SettleUpdateKeepsPhase(s, a, at);
    case SettleEvent(availableAt, at) => SettleEventKeepsPhase(s, a, availableAt, at);
    case _ => OtherExecutesKeepPhase(c, s, a, op);
  }

  lemma OtherExecutesKeepPhase(c: Config, s: State, a: nat, op: ExecuteOp)
    requires ExecuteEnabled(s, a, op) && !op.SettleUpdate? && !op.SettleEvent? && ExecutorInv(s, s.sessions[a])
    ensures var y := ExecuteSession(s, a, op); PhaseInv(c, With(s, a, y), y)
  {
  }

  lemma ExecuteStatementKeepsInv(c: Config, s: State, a: nat, op: ExecuteOp)
    requires Inv(c, s) && ExecuteEnabled(s, a, op)
    ensures Inv(c, With(s, a, ExecuteSession(s, a, op)))
  {
    hide LocalChange, QueueInv, ApartInv, JobsInv, EventsInv, CapInv, WakeInv;
    IdsAreBelow(c, s);
    assert SessionInv(c, s, s.sessions[a]);
    ExecuteStatementIsLocal(s, a, op);
    ExecuteStatementKeepsClaim(s, a, op);
    ExecuteStatementKeepsPhase(c, s, a, op);
    LocalKeepsInv(c, s, a, ExecuteSession(s, a, op));
  }

  /* Recovery */

  lemma RecoverStatementStaysApart(s: State, a: nat, op: RecoverOp)
    requires ApartInv(s) && IdsBelow(s) && RecoverEnabled(s, a, op)
    ensures var y := RecoverSession(s, a, op);
            forall b | b in s.sessions && b != a :: Apart(y, s.sessions[b]) && Apart(s.sessions[b], y)
  {
    hide ApartInv, IdsBelow;
    if !op.LockExpired? {
      StaysApart(s, a, s.sessions[a], RecoverSession(s, a, op));
    }
  }

  lemma RecoverStatementIsLocal(s: State, a: nat, op: RecoverOp)
    requires ApartInv(s) && IdsBelow(s) && RecoverEnabled(s, a, op)
    ensures LocalChange(s, a, RecoverSession(s, a, op))
  {
    hide ApartInv, IdsBelow, Apart;
    RecoverStatementStaysApart(s, a, op);
  }

  lemma RecoverOneIsSound(s: State, a: nat, j: nat, at: int)
    requires JobsInv(s) && RecoverEnabled(s, a, RecoverOne(j, at))
    requires var x := s.sessions[a]; RecoveryInv(s, x, x.phase.todo, x.phase.requeued, x.phase.readAt)
    ensures var y := RecoverSession(s, a, RecoverOne(j, at));
            RecoveryInv(With(s, a, y), y, y.phase.todo, y.phase.requeued, y.phase.readAt)
  {
    var x, y := s.sessions[a], RecoverSession(s, a, RecoverOne(j, at));
    var t := With(s, a, y);
    forall e | e in y.events ensures !Unpublished(y.events, e, j) {
      assert x.events[e].job in x.jobs;
    }
    forall k | k in y.jobs ensures RecoveryStaged(t, y, y.phase.requeued, k) {
      if k != j {
        assert RecoveryStaged(s, x, x.phase.requeued, k);
      }
    }
  }

  lemma RecoverEventIsSound(s: State, a: nat, at: int)
    requires EventsInv(s) && RecoverEnabled(s, a, RecoverEvent(at))
    requires var x := s.sessions[a]; RecoveryInv(s, x, x.phase.todo, x.phase.requeued, x.phase.readAt)
    ensures var y := RecoverSession(s, a, RecoverEvent(at));
            RecoveryInv(With(s, a, y), y, y.phase.todo, y.phase.requeued, y.phase.readAt)
  {
    var x, y := s.sessions[a], RecoverSession(s, a, RecoverEvent(at));
    var t := With(s, a, y);
    var j := x.phase.requeued.value;
    assert RecoveryStaged(s, x, x.phase.requeued, j);
    EventIfAbsentWakes(s, x, t, y, j, at, at);
    forall k | k in y.jobs ensures RecoveryStaged(t, y, None, k) {
      assert RecoveryStaged(s, x, x.phase.requeued, k);
    }
  }

  lemma LockExpiredIsSound(s: State, a: nat, ids: set<nat>, at: int)
    requires RecoverEnabled(s, a, LockExpired(ids, at))
    ensures var y := RecoverSession(s, a, LockExpired(ids, at)); RecoveryInv(With(s, a, y), y, ids, None, at)
  {
  }

  lemma RecoverStatementIsSound(s: State, a: nat, op: RecoverOp)
    requires JobsInv(s) && EventsInv(s) && RecoverEnabled(s, a, op)
    requires a in s.sessions ==>
               var x := s.sessions[a];
               x.phase.Recovering? && RecoveryInv(s, x, x.phase.todo, x.phase.requeued, x.phase.readAt)
    ensures var y := RecoverSession(s, a, op);
            y.phase.Recovering? && RecoveryInv(With(s, a, y), y, y.phase.todo, y.phase.requeued, y.phase.readAt)
  {
    match op
    case LockExpired(ids, at) => LockExpiredIsSound(s, a, ids, at);
    case RecoverOne(j, at) => RecoverOneIsSound(s, a, j, at);
    case RecoverEvent(at) => RecoverEventIsSound(s, a, at);
  }

  lemma RecoveringIsSound(c: Config, s: State, x: Session)
    requires x.phase.Recovering? && RecoveryInv(s, x, x.phase.todo, x.phase.requeued, x.phase.readAt)
    ensures SessionInv(c, s, x)
  {
  }

  lemma RecoverStatementKeepsInv(c: Config, s: State, a: nat, op: RecoverOp)
    requires Inv(c, s) && RecoverEnabled(s, a, op)
    ensures Inv(c, With(s, a, RecoverSession(s, a, op)))
  {
    hide RecoveryInv, LocalChange, QueueInv, ApartInv, JobsInv, EventsInv, CapInv, WakeInv;
    IdsAreBelow(c, s);
    assert a in s.sessions ==> SessionInv(c, s, s.sessions[a]);
    RecoverStatementIsLocal(s, a, op);
    RecoverStatementIsSound(s, a, op);
    RecoveringIsSound(c, With(s, a, RecoverSession(s, a, op)), RecoverSession(s, a, op));
    LocalKeepsInv(c, s, a, RecoverSession(s, a, op));
  }

  /* Cancelling through the API */

  lemma CancelStatementIsLocal(s: State, a: nat, op: CancelOp)
    requires QueueInv(s) && ApartInv(s) && IdsBelow(s) && CancelEnabled(s, a, op)
    ensures LocalChange(s, a, CancelSession(s, a, op))
  {
    hide QueueInv, IdsBelow;
    if op.WriteCancel? {
      StaysApart(s, a, s.sessions[a], CancelSession(s, a, op));
    }
  }

  lemma CancelStatementIsSound(s: State, a: nat, op: CancelOp)
    requires CancelEnabled(s, a, op)
    requires op.WriteCancel? ==> CancellerInv(s, s.sessions[a])
    ensures var y := CancelSession(s, a, op);
            (y.phase.CancelJob? || y.phase.CancelReady?) && CancellerInv(With(s, a, y), y)
  {
  }

  lemma CancellingIsSound(c: Config, s: State, x: Session)
    requires (x.phase.CancelJob? || x.phase.CancelReady?) && CancellerInv(s, x)
    ensures SessionInv(c, s, x)
  {
  }

  lemma CancelStatementKeepsInv(c: Config, s: State, a: nat, op: CancelOp)
    requires Inv(c, s) && CancelEnabled(s, a, op)
    ensures Inv(c, With(s, a, CancelSession(s, a, op)))
  {
    hide CancellerInv, LocalChange, QueueInv, ApartInv, JobsInv, EventsInv, CapInv, WakeInv;
    IdsAreBelow(c, s);
    assert a in s.sessions ==> SessionInv(c, s, s.sessions[a]);
    CancelStatementIsLocal(s, a, op);
    CancelStatementIsSound(s, a, op);
    CancellingIsSound(c, With(s, a, CancelSession(s, a, op)), CancelSession(s, a, op));
    LocalKeepsInv(c, s, a, CancelSession(s, a, op));
  }
}
