/** When a waiting job can start before the time its dispatch event is due. */
module Backoff {
  import opened Wrappers
  import opened JobState
  import opened JobRows
  import opened Outbox
  import opened Protocol
  import opened ProtocolInvariant
  import opened ProtocolCommit
  import opened ProtocolRuns
  import opened ProtocolHonesty
  import opened Scripts

  predicate MessageFor(s: State, j: nat) {
    exists m | m in s.queue :: s.queue[m].job == j
  }

  // The job is not running, and no message, delivered or not, names it.
  predicate Dormant(s: State, j: nat) {
    j in s.jobs && s.jobs[j].status != Running && !MessageFor(s, j)
  }

  // No publisher is at work on the event.
  predicate Untouched(s: State, e: nat) {
    forall a | a in s.sessions && Publishing(s.sessions[a].phase) :: s.sessions[a].phase.e != e
  }

  predicate Locks(st: Step, e: nat) {
    st.Publish? && st.publish.LockEvent? && st.publish.e == e
  }

  /* ----- A job without a message sleeps until a publisher wakes it ----- */

  // The step sends a message that names the job.
  predicate Sends(s: State, st: Step, j: nat) {
    && st.Send? && st.a in s.sessions && s.sessions[st.a].phase.PubSend? && s.sessions[st.a].phase.e in s.events
    && s.events[s.sessions[st.a].phase.e].payload.jobId == j
  }

  lemma CommitKeepsDormant(c: Config, s: State, a: nat, j: nat)
    requires Inv(c, s) && a in s.sessions && Committing(s.sessions[a].phase) && Dormant(s, j)
    ensures Dormant(CommitSession(s, a), j)
  {
    var x := s.sessions[a];
    assert SessionInv(c, s, x);
    ReadyIsStaged(c, s, x);
    assert j in x.jobs ==> StagedRow(s, x, j);
  }

  lemma QueueStepKeepsDormant(c: Config, s: State, st: Step, j: nat)
    requires Enabled(c, s, st) && !st.Commit? && !st.Create? && Dormant(s, j) && !Sends(s, st, j)
    ensures Dormant(Apply(c, s, st), j)
  {
    var t := Apply(c, s, st);
    OnlyCommitsWriteRows(c, s, st);
    forall m | m in t.queue ensures t.queue[m].job != j {
      assert m in s.queue ==> s.queue[m].job != j;
    }
  }

  /** Whatever happens, a job that is not running and has no message does not start before one is sent. */
  lemma DormantUntilAMessage(c: Config, s: State, st: Step, j: nat)
    requires Inv(c, s) && Enabled(c, s, st) && Dormant(s, j) && !Sends(s, st, j)
    ensures Dormant(Apply(c, s, st), j)
  {
    hide Inv, Dormant;
    if st.Commit? {
      CommitKeepsDormant(c, s, st.a, j);
    } else if st.Create? {
      CreateKeepsDormant(c, s, st.owner, st.maxRetries, st.at, j);
    } else {
      QueueStepKeepsDormant(c, s, st, j);
    }
  }

  lemma CreateKeepsDormant(c: Config, s: State, owner: nat, maxRetries: nat, at: int, j: nat)
    requires Inv(c, s) && Dormant(s, j)
    ensures Dormant(CreateJob(s, owner, maxRetries, at), j)
  {
    CreateMovesRows(s, owner, maxRetries, at);
  }

  /* ----- Its event is published at its time ----- */

  // The job sleeps, and its one unpublished event has not failed and is not due before `time`.
  ghost predicate Quiet(s: State, j: nat, e: nat, time: int) {
    && Dormant(s, j) && Unpublished(s.events, e, j) && Untouched(s, e)
    && s.events[e].publishAttempts == 0 && s.events[e].availableAt >= time
  }

  // The step does not lock the event, or does so for a clock reading before `time`.
  predicate Prompt(st: Step, e: nat, time: int) {
    Locks(st, e) ==> st.publish.at < time
  }

  predicate AllPrompt(script: seq<Step>, e: nat, time: int) {
    forall st | st in script :: Prompt(st, e, time)
  }

  // A publisher that sends a message for the job is at work on its event.
  lemma SendersAreAtWork(c: Config, s: State, st: Step, j: nat, e: nat)
    requires Inv(c, s) && Enabled(c, s, st) && Sends(s, st, j) && Unpublished(s.events, e, j)
    ensures !Untouched(s, e)
  {
    SessionIsSound(c, s, st.a);
    assert Unpublished(s.events, s.sessions[st.a].phase.e, j);
  }

  lemma StaysUntouched(c: Config, s: State, st: Step, e: nat)
    requires Enabled(c, s, st) && Untouched(s, e) && !Locks(st, e)
    ensures Untouched(Apply(c, s, st), e)
  {
  }

  lemma UntouchedEventStays(c: Config, s: State, st: Step, e: nat)
    requires Inv(c, s) && Enabled(c, s, st) && Untouched(s, e) && e in s.events
    ensures e in Apply(c, s, st).events && Apply(c, s, st).events[e] == s.events[e]
  {
    if st.Commit? {
      SessionIsSound(c, s, st.a);
      if e in s.sessions[st.a].events {
        OnlyPublishersStampEvents(c, s, s.sessions[st.a], e);
      }
    } else {
      EventsAreSound(c, s);
    }
  }

  lemma StaysQuiet(c: Config, s: State, st: Step, j: nat, e: nat, time: int)
    requires Inv(c, s) && Enabled(c, s, st) && Quiet(s, j, e, time) && Prompt(st, e, time)
    ensures Quiet(Apply(c, s, st), j, e, time)
  {
    hide Inv, Apply, Dormant, Untouched, Sends;
    if Sends(s, st, j) {
      SendersAreAtWork(c, s, st, j, e);
    }
    DormantUntilAMessage(c, s, st, j);
    StaysUntouched(c, s, st, e);
    UntouchedEventStays(c, s, st, e);
  }

  lemma {:induction false} QuietJobsDoNotStart(c: Config, s: State, script: seq<Step>, t: State, j: nat, e: nat,
                                               time: int)
    requires Inv(c, s) && Quiet(s, j, e, time) && Plays(c, s, script, t) && AllPrompt(script, e, time)
    ensures Inv(c, t) && Quiet(t, j, e, time)
  {
    hide Inv, Quiet, Enabled, Apply, Prompt;
    if script != [] {
      var last := |script| - 1;
      var mid := After(c, s, script[..last]).value;
      QuietJobsDoNotStart(c, s, script[..last], mid, j, e, time);
      StaysQuiet(c, mid, script[last], j, e, time);
      StepKeepsInv(c, mid, script[last]);
    }
  }

  /* ----- How it starts before that ----- */

  // The system after every open session was lost.
  ghost predicate AllLost(s: State, t: State) {
    && t.nextId == s.nextId && t.jobs == s.jobs && t.events == s.events && t.sessions == map[]
    && t.queue.Keys == s.queue.Keys && forall m | m in s.queue :: t.queue[m].job == s.queue[m].job
  }

  lemma {:induction false} CrashAll(c: Config, s: State) returns (script: seq<Step>, t: State)
    ensures Plays(c, s, script, t) && NoPublisher(script) && AllLost(s, t)
    decreases |s.sessions|
  {
    hide After;
    script := Begin(c, s);
    t := s;
    if s.sessions != map[] {
      assert s.sessions.Keys != {};
      var a :| a in s.sessions;
      var mid := Apply(c, s, Crash(a));
      assert mid.sessions.Keys == s.sessions.Keys - {a};
      script := Then(c, s, script, s, Crash(a));
      var rest;
      rest, t := CrashAll(c, mid);
      PlayBoth(c, s, script, mid, rest, t);
      script := script + rest;
    }
  }

  // Only running rows changed, and only events and messages were added.
  ghost predicate OthersKept(s: State, t: State) {
    && t.sessions == s.sessions && t.queue == s.queue && t.jobs.Keys == s.jobs.Keys
    && forall j | j in s.jobs && s.jobs[j].status != Running :: t.jobs[j] == s.jobs[j]
  }

  ghost predicate AllShaped(jobs: map<nat, Job>) {
    forall j | j in jobs :: WellShaped(jobs[j])
  }

  // Takes back what an owner has running, one lease after the other.
  lemma {:induction false} MakeRoom(c: Config, s: State, owner: nat) returns (script: seq<Step>, t: State)
    requires AllShaped(s.jobs) && s.sessions == map[]
    ensures Plays(c, s, script, t) && NoPublisher(script) && OthersKept(s, t) && RunningOf(t.jobs, owner) == {}
    decreases |RunningOf(s.jobs, owner)|
  {
    hide Plays;
    script := Begin(c, s);
    t := s;
    if RunningOf(s.jobs, owner) != {} {
      var j :| j in RunningOf(s.jobs, owner);
      var at := s.jobs[j].leaseExpiresAt.value + 1;
      script := RecoverRow(c, s, 0, j, at);
      var mid := TakenBackRow(s, j, at);
      OneRunsLess(s, owner, j, at);
      var rest;
      rest, t := MakeRoom(c, mid, owner);
      PlayBoth(c, s, script, mid, rest, t);
      script := script + rest;
    }
  }

  lemma OneRunsLess(s: State, owner: nat, j: nat, at: int)
    requires AllShaped(s.jobs) && j in RunningOf(s.jobs, owner)
    ensures j in s.jobs && s.jobs[j].token.Some?
    ensures var t := TakenBackRow(s, j, at);
            AllShaped(t.jobs) && OthersKept(s, t) && |RunningOf(t.jobs, owner)| < |RunningOf(s.jobs, owner)|
  {
    var t := TakenBackRow(s, j, at);
    UpdatesKeepTheShape(s.jobs[j], RecoveryUpdate(s.jobs[j]), at);
    RunningRowsLeave(s.jobs[j], at);
    assert t.jobs == s.jobs[j := t.jobs[j]];
    assert RunningOf(t.jobs, owner) == RunningOf(s.jobs, owner) - {j};
  }

  lemma RunningRowsLeave(job: Job, at: int)
    requires WellShaped(job) && job.status == Running
    ensures Matches(job, RecoveryUpdate(job)) && Updated(job, RecoveryUpdate(job), at).status != Running
  {
  }

  /**
   A queued job with a message starts while its event is still to be published, at
   any time a worker's clock may show.  If the owner has room, nothing else changes.
   */
  lemma MessageStartsTheJob(c: Config, s: State, m: nat, at: int) returns (script: seq<Step>, t: State)
    requires Inv(c, s) && s.sessions == map[] && c.maxRunningPerUser >= 1
    requires m in s.queue && s.queue[m].job in s.jobs && s.jobs[s.queue[m].job].status == Queued
    ensures Plays(c, s, script, t) && NoPublisher(script)
    ensures var j := s.queue[m].job;
            && j in t.jobs && t.jobs[j].status == Running && t.jobs[j].updatedAt == at
            && (|RunningOf(s.jobs, s.jobs[j].owner)| < c.maxRunningPerUser ==> t.jobs == s.jobs[j := t.jobs[j]])
  {
    hide Plays;
    var j, owner, mid := s.queue[m].job, s.jobs[s.queue[m].job].owner, s;
    script := Begin(c, s);
    if |RunningOf(s.jobs, owner)| >= c.maxRunningPerUser {
      script, mid := MakeRoom(c, s, owner);
    }
    var start := ClaimAndStart(c, mid, 0, m, at);
    t := Started(c, mid, 0, m, at);
    PlayBoth(c, s, script, mid, start, t);
    script := script + start;
  }

  // A publisher sends the job's event as soon as it is due, and the job starts.
  lemma EventStartsTheJob(c: Config, s: State, j: nat, e: nat) returns (script: seq<Step>, t: State)
    requires Inv(c, s) && s.sessions == map[] && c.maxRunningPerUser >= 1
    requires j in s.jobs && s.jobs[j].status == Queued && Unpublished(s.events, e, j)
    ensures Plays(c, s, script, t) && LocksAt(script, s.events[e].availableAt)
    ensures j in t.jobs && t.jobs[j].status == Running && t.jobs[j].updatedAt == s.events[e].availableAt
  {
    hide Plays, Inv;
    EventsAreSound(c, s);
    var at := s.events[e].availableAt;
    script := PublishAndCommit(c, s, 0, e, at);
    var mid := Dispatched(s, e, at);
    PlayKeepsInv(c, s, script, mid);
    var rest;
    rest, t := MessageStartsTheJob(c, mid, s.nextId + 3, at);
    PlayBoth(c, s, script, mid, rest, t);
    script := script + rest;
  }

  // Some continuation starts the job before `time`, by the clocks of its worker and of whoever locks the event.
  ghost predicate CanStartBefore(c: Config, s: State, j: nat, e: nat, time: int) {
    exists script, t {:trigger Plays(c, s, script, t)} ::
      && Plays(c, s, script, t) && AllPrompt(script, e, time)
      && j in t.jobs && t.jobs[j].status == Running && t.jobs[j].updatedAt < time
  }

  lemma StartsBefore(c: Config, s: State, j: nat, e: nat, time: int)
    requires Inv(c, s) && c.maxRunningPerUser >= 1 && j in s.jobs && s.jobs[j].status == Queued
    requires Unpublished(s.events, e, j) && (MessageFor(s, j) || s.events[e].availableAt < time)
    ensures CanStartBefore(c, s, j, e, time)
  {
    hide Inv, Plays;
    var script, mid := CrashAll(c, s);
    PlayKeepsInv(c, s, script, mid);
    var rest, t;
    if m :| m in s.queue && s.queue[m].job == j {
      rest, t := MessageStartsTheJob(c, mid, m, time - 1);
    } else {
      rest, t := EventStartsTheJob(c, mid, j, e);
    }
    PlayBoth(c, s, script, mid, rest, t);
    assert AllPrompt(script + rest, e, time);
  }

  /**
   When a retry can start before `time`, the time its backoff gives it.  In any
   reachable state, a queued job whose event has not failed and is in no publisher's
   hands can do so exactly if a message names the job, delivered or not, or the event
   is due before `time` - because the job had it already when the retry was planned.
   */
  lemma EarlyStarts(c: Config, run: seq<State>, i: nat, j: nat, e: nat, time: int)
    requires IsRun(c, run) && i < |run| && c.maxRunningPerUser >= 1
    requires j in run[i].jobs && run[i].jobs[j].status == Queued && Unpublished(run[i].events, e, j)
    requires run[i].events[e].publishAttempts == 0 && Untouched(run[i], e)
    ensures CanStartBefore(c, run[i], j, e, time) <==> MessageFor(run[i], j) || run[i].events[e].availableAt < time
  {
    var s := run[i];
    ReachableKeepsInv(c, run, i);
    hide Inv, IsRun, Plays;
    if MessageFor(s, j) || s.events[e].availableAt < time {
      StartsBefore(c, s, j, e, time);
    } else if CanStartBefore(c, s, j, e, time) {
      var script, t :| Plays(c, s, script, t) && AllPrompt(script, e, time)
                       && j in t.jobs && t.jobs[j].status == Running;
      QuietJobsDoNotStart(c, s, script, t, j, e, time);
    }
  }
}
