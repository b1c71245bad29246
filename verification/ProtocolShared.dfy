/** The steps that change the tables or the broker queue keep the invariant. */
module ProtocolShared {
  import opened Wrappers
  import opened Outbox
  import opened Protocol
  import opened ProtocolInvariant
  import opened ProtocolSteps

  // Every session of `t` was open, unchanged and undisturbed in `s`.
  ghost predicate Bystanders(s: State, t: State, a: Option<nat>) {
    forall b | b in t.sessions && Some(b) != a ::
      b in s.sessions && t.sessions[b] == s.sessions[b] && Undisturbed(s, t, s.sessions[b])
  }

  lemma BystandersKeepInv(c: Config, s: State, t: State, a: Option<nat>)
    requires EventsInv(s) && SessionsInv(c, s) && Bystanders(s, t, a)
    requires a.Some? && a.value in t.sessions ==> SessionInv(c, t, t.sessions[a.value])
    ensures SessionsInv(c, t)
  {
    forall b | b in t.sessions ensures SessionInv(c, t, t.sessions[b]) {
      if Some(b) != a {
        UndisturbedKeepsSession(c, s, t, s.sessions[b]);
      }
    }
  }

  /* ----- Creating a job ----- */

  lemma CreateKeepsRunning(s: State, owner: nat, maxRetries: nat, at: int, o: nat)
    requires JobsInv(s)
    ensures RunningOf(CreateJob(s, owner, maxRetries, at).jobs, o) == RunningOf(s.jobs, o)
  {
  }

  lemma CreateKeepsTables(c: Config, s: State, owner: nat, maxRetries: nat, at: int)
    requires TablesInv(c, s)
    ensures TablesInv(c, CreateJob(s, owner, maxRetries, at))
  {
    var t := CreateJob(s, owner, maxRetries, at);
    assert JobsInv(t) && EventsInv(t);
    forall o: nat ensures RunningOf(t.jobs, o) == RunningOf(s.jobs, o) {
      CreateKeepsRunning(s, owner, maxRetries, at, o);
    }
    assert ApartInv(t);
  }

  lemma CreateKeepsUnpublished(s: State, owner: nat, maxRetries: nat, at: int, j: nat)
    requires JobsInv(s) && EventsInv(s) && j in s.jobs
    ensures HasUnpublished(CreateJob(s, owner, maxRetries, at).events, j) == HasUnpublished(s.events, j)
  {
    var t := CreateJob(s, owner, maxRetries, at);
    if HasUnpublished(s.events, j) {
      var e :| e in s.events && Unpublished(s.events, e, j);
      assert Unpublished(t.events, e, j);
    }
    if HasUnpublished(t.events, j) {
      var e :| e in t.events && Unpublished(t.events, e, j);
      assert Unpublished(s.events, e, j);
    }
  }

  lemma CreateKeepsWake(s: State, owner: nat, maxRetries: nat, at: int)
    requires JobsInv(s) && EventsInv(s) && WakeInv(s)
    ensures WakeInv(CreateJob(s, owner, maxRetries, at))
  {
    var t := CreateJob(s, owner, maxRetries, at);
    forall j | j in t.jobs ensures Awaited(t, j) {
      if j in s.jobs {
        assert Awaited(s, j);
        CreateKeepsUnpublished(s, owner, maxRetries, at, j);
        if HasLive(s, j) {
          var m :| m in s.queue && LiveFor(s, m, j);
          assert LiveFor(t, m, j);
        }
      } else {
        assert Unpublished(t.events, s.nextId + 1, j);
      }
    }
  }

  // What was there before a creation is as it was.
  lemma CreateOnlyAdds(s: State, owner: nat, maxRetries: nat, at: int)
    requires JobsInv(s) && EventsInv(s)
    ensures var t := CreateJob(s, owner, maxRetries, at);
            && s.nextId <= t.nextId && t.queue == s.queue && t.sessions == s.sessions
            && (forall j | j in s.jobs ::
                  j in t.jobs && t.jobs[j] == s.jobs[j] && HasUnpublished(t.events, j) == HasUnpublished(s.events, j))
            && (forall j | j in t.jobs && t.jobs[j].token.Some? :: j in s.jobs)
            && (forall e | e in s.events :: e in t.events && t.events[e] == s.events[e])
            && (forall e | e in t.events && e !in s.events :: e >= s.nextId)
            && (forall o: nat :: RunningOf(t.jobs, o) == RunningOf(s.jobs, o))
  {
    var t := CreateJob(s, owner, maxRetries, at);
    forall j | j in s.jobs ensures HasUnpublished(t.events, j) == HasUnpublished(s.events, j) {
      CreateKeepsUnpublished(s, owner, maxRetries, at, j);
    }
    forall o: nat ensures RunningOf(t.jobs, o) == RunningOf(s.jobs, o) {
      CreateKeepsRunning(s, owner, maxRetries, at, o);
    }
  }

  lemma CreateLeavesSession(s: State, owner: nat, maxRetries: nat, at: int, x: Session)
    requires JobsInv(s) && EventsInv(s)
    requires forall e | e in x.events :: e < s.nextId
    ensures Undisturbed(s, CreateJob(s, owner, maxRetries, at), x)
  {
    hide CreateJob, JobsInv, EventsInv, HasUnpublished, RunningOf;
    CreateOnlyAdds(s, owner, maxRetries, at);
  }

  lemma CreateLeavesSessions(s: State, owner: nat, maxRetries: nat, at: int)
    requires JobsInv(s) && EventsInv(s) && IdsBelow(s)
    ensures Bystanders(s, CreateJob(s, owner, maxRetries, at), None)
  {
    forall b | b in s.sessions ensures Undisturbed(s, CreateJob(s, owner, maxRetries, at), s.sessions[b]) {
      CreateLeavesSession(s, owner, maxRetries, at, s.sessions[b]);
    }
  }

  lemma CreateKeepsInv(c: Config, s: State, owner: nat, maxRetries: nat, at: int)
    requires Inv(c, s)
    ensures Inv(c, CreateJob(s, owner, maxRetries, at))
  {
    IdsAreBelow(c, s);
    CreateKeepsTables(c, s, owner, maxRetries, at);
    CreateKeepsWake(s, owner, maxRetries, at);
    CreateLeavesSessions(s, owner, maxRetries, at);
    BystandersKeepInv(c, s, CreateJob(s, owner, maxRetries, at), None);
  }

  /* ----- The broker: accepting, delivering, acknowledging, taking back ----- */

  // The tables are untouched, live messages stay live, and only session `a` changes.
  ghost predicate BrokerOnly(s: State, t: State, a: nat) {
    && t.jobs == s.jobs && t.events == s.events && s.nextId <= t.nextId
    && (forall m | m in s.queue && Live(s, m) ::
          Live(t, m) && t.queue[m].job == s.queue[m].job && t.queue[m].event == s.queue[m].event)
    && (forall b | b in t.sessions && b != a :: b in s.sessions && t.sessions[b] == s.sessions[b])
    && (forall m | m in s.queue && s.queue[m].holder.Some? && s.queue[m].holder != Some(a) ::
          m in t.queue && t.queue[m].job == s.queue[m].job)
  }

  lemma BrokerKeepsWake(s: State, t: State, a: nat)
    requires WakeInv(s) && BrokerOnly(s, t, a)
    ensures WakeInv(t)
  {
    forall j | j in t.jobs ensures Awaited(t, j) {
      assert Awaited(s, j);
      if HasLive(s, j) {
        var m :| m in s.queue && LiveFor(s, m, j);
        assert LiveFor(t, m, j);
      }
    }
  }

  lemma BrokerLeavesSessions(s: State, t: State, a: nat)
    requires QueueInv(s) && BrokerOnly(s, t, a)
    ensures Bystanders(s, t, Some(a))
  {
  }

  lemma BrokerKeepsTables(c: Config, s: State, t: State, a: nat)
    requires TablesInv(c, s) && BrokerOnly(s, t, a) && QueueInv(t)
    requires a in t.sessions ==> forall b | b in t.sessions && b != a ::
               Apart(t.sessions[a], t.sessions[b]) && Apart(t.sessions[b], t.sessions[a])
    ensures TablesInv(c, t)
  {
  }

  lemma BrokerKeepsInv(c: Config, s: State, t: State, a: nat)
    requires Inv(c, s) && BrokerOnly(s, t, a) && QueueInv(t)
    requires a in t.sessions ==> forall b | b in t.sessions && b != a ::
               Apart(t.sessions[a], t.sessions[b]) && Apart(t.sessions[b], t.sessions[a])
    requires a in t.sessions ==> SessionInv(c, t, t.sessions[a])
    ensures Inv(c, t)
  {
    BrokerKeepsTables(c, s, t, a);
    BrokerKeepsWake(s, t, a);
    BrokerLeavesSessions(s, t, a);
    BystandersKeepInv(c, s, t, Some(a));
  }

  lemma DeliverIsBrokerOnly(s: State, a: nat, m: nat)
    requires QueueInv(s) && a !in s.sessions && m in s.queue && s.queue[m].holder == None
    ensures var t := DeliverMessage(s, a, m); BrokerOnly(s, t, a) && QueueInv(t)
  {
  }

  lemma ReceivingIsSound(c: Config, s: State, m: nat)
    ensures SessionInv(c, s, Idle(Received(m)))
    ensures forall y: Session :: Apart(Idle(Received(m)), y) && Apart(y, Idle(Received(m)))
  {
  }

  lemma SendIsBrokerOnly(s: State, a: nat)
    requires EventsInv(s) && QueueInv(s)
    requires a in s.sessions && s.sessions[a].phase.PubSend? && s.sessions[a].phase.e in s.events
    ensures var t := SendMessage(s, a); BrokerOnly(s, t, a) && QueueInv(t)
  {
  }

  lemma SendIsSound(c: Config, s: State, a: nat)
    requires EventsInv(s) && QueueInv(s)
    requires a in s.sessions && s.sessions[a].phase.PubSend? && s.sessions[a].phase.e in s.events
    requires SessionInv(c, s, s.sessions[a])
    ensures var t := SendMessage(s, a); SessionInv(c, t, t.sessions[a])
  {
  }

  lemma AckIsBrokerOnly(s: State, a: nat)
    requires QueueInv(s) && a in s.sessions && s.sessions[a].phase.Handled?
    ensures var t := s.(queue := s.queue - {s.sessions[a].phase.m}, sessions := s.sessions - {a});
            BrokerOnly(s, t, a) && QueueInv(t)
  {
  }

  lemma CrashIsBrokerOnly(s: State, a: nat)
    requires QueueInv(s) && a in s.sessions
    ensures var t := s.(queue := Redelivered(s.queue, a), sessions := s.sessions - {a});
            BrokerOnly(s, t, a) && QueueInv(t)
  {
  }

  lemma DeliverKeepsInv(c: Config, s: State, a: nat, m: nat)
    requires Inv(c, s) && a !in s.sessions && m in s.queue && s.queue[m].holder == None
    ensures Inv(c, DeliverMessage(s, a, m))
  {
    DeliverIsBrokerOnly(s, a, m);
    ReceivingIsSound(c, DeliverMessage(s, a, m), m);
    BrokerKeepsInv(c, s, DeliverMessage(s, a, m), a);
  }

  lemma SendKeepsInv(c: Config, s: State, a: nat)
    requires Inv(c, s)
    requires a in s.sessions && s.sessions[a].phase.PubSend? && s.sessions[a].phase.e in s.events
    ensures Inv(c, SendMessage(s, a))
  {
    SendIsBrokerOnly(s, a);
    SendIsSound(c, s, a);
    IdsAreBelow(c, s);
    StaysApart(s, a, s.sessions[a], SendMessage(s, a).sessions[a]);
    BrokerKeepsInv(c, s, SendMessage(s, a), a);
  }

  lemma BrokerStepKeepsInv(c: Config, s: State, st: Step)
    requires Inv(c, s) && Enabled(c, s, st)
    requires st.Deliver? || st.Send? || st.Ack? || st.Crash?
    ensures Inv(c, Apply(c, s, st))
  {
    match st
    case Deliver(a, m) => DeliverKeepsInv(c, s, a, m);
    case Send(a) => SendKeepsInv(c, s, a);
    case Ack(a) =>
      AckIsBrokerOnly(s, a);
      BrokerKeepsInv(c, s, Apply(c, s, st), a);
    case Crash(a) =>
      CrashIsBrokerOnly(s, a);
      BrokerKeepsInv(c, s, Apply(c, s, st), a);
  }

  /* ----- Recording a failed publish ----- */

  lemma RecordFailureKeepsUnpublished(s: State, a: nat, error: string, j: nat)
    requires a in s.sessions && s.sessions[a].phase.PubFailed?
    ensures HasUnpublished(RecordPublishFailure(s, a, error).events, j) == HasUnpublished(s.events, j)
  {
    var t := RecordPublishFailure(s, a, error);
    if HasUnpublished(s.events, j) {
      var e :| e in s.events && Unpublished(s.events, e, j);
      assert Unpublished(t.events, e, j);
    }
    if HasUnpublished(t.events, j) {
      var e :| e in t.events && Unpublished(t.events, e, j);
      assert Unpublished(s.events, e, j);
    }
  }

  lemma RecordFailureKeepsEvents(s: State, a: nat, error: string)
    requires EventsInv(s) && a in s.sessions && s.sessions[a].phase.PubFailed?
    ensures EventsInv(RecordPublishFailure(s, a, error))
  {
  }

  lemma RecordFailureKeepsTables(c: Config, s: State, a: nat, error: string)
    requires TablesInv(c, s) && a in s.sessions && s.sessions[a].phase.PubFailed?
    ensures TablesInv(c, RecordPublishFailure(s, a, error))
  {
    RecordFailureKeepsEvents(s, a, error);
  }

  lemma RecordFailureKeepsWake(c: Config, s: State, a: nat, error: string)
    requires WakeInv(s) && QueueInv(s) && Enabled(c, s, RecordFailure(a, error))
    ensures WakeInv(RecordPublishFailure(s, a, error))
  {
    var t := RecordPublishFailure(s, a, error);
    forall j | j in t.jobs ensures Awaited(t, j) {
      assert Awaited(s, j);
      RecordFailureKeepsUnpublished(s, a, error, j);
      if HasLive(s, j) {
        var m :| m in s.queue && LiveFor(s, m, j);
        assert LiveFor(t, m, j);
      }
    }
  }

  lemma RecordFailureLeavesSessions(c: Config, s: State, a: nat, error: string)
    requires QueueInv(s) && Enabled(c, s, RecordFailure(a, error))
    ensures Bystanders(s, RecordPublishFailure(s, a, error), Some(a))
  {
    var t := RecordPublishFailure(s, a, error);
    forall b | b in t.sessions ensures Undisturbed(s, t, s.sessions[b]) {
      var x := s.sessions[b];
      forall j | j in x.rows && j in s.jobs ensures HasUnpublished(t.events, j) == HasUnpublished(s.events, j) {
        RecordFailureKeepsUnpublished(s, a, error, j);
      }
    }
  }

  lemma RecordFailureKeepsInv(c: Config, s: State, a: nat, error: string)
    requires Inv(c, s) && Enabled(c, s, RecordFailure(a, error))
    ensures Inv(c, RecordPublishFailure(s, a, error))
  {
    RecordFailureKeepsTables(c, s, a, error);
    RecordFailureKeepsWake(c, s, a, error);
    RecordFailureLeavesSessions(c, s, a, error);
    BystandersKeepInv(c, s, RecordPublishFailure(s, a, error), Some(a));
  }
}
