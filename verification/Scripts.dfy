/** Continuations of a run, written down as the steps that are taken. */
module Scripts {
  import opened Wrappers
  import opened JobState
  import opened JobRows
  import opened Outbox
  import opened Protocol
  import opened ProtocolInvariant
  import opened ProtocolCommit
  import opened ProtocolRuns
  import opened Cluster

  // Where the steps lead from `s`, if each of them is enabled in its turn.
  ghost function After(c: Config, s: State, script: seq<Step>): Option<State> {
    if script == [] then Some(s)
    else
      var last := |script| - 1;
      var mid := After(c, s, script[..last]);
      if mid.Some? && Enabled(c, mid.value, script[last]) then Some(Apply(c, mid.value, script[last])) else None
  }

  ghost predicate Plays(c: Config, s: State, script: seq<Step>, t: State) {
    After(c, s, script) == Some(t)
  }

  lemma Then(c: Config, s: State, script: seq<Step>, mid: State, st: Step) returns (longer: seq<Step>)
    requires Plays(c, s, script, mid) && Enabled(c, mid, st)
    ensures longer == script + [st] && Plays(c, s, longer, Apply(c, mid, st))
  {
    longer := script + [st];
    assert longer[..|script|] == script;
  }

  lemma {:induction false} PlayBoth(c: Config, s: State, first: seq<Step>, mid: State, second: seq<Step>, t: State)
    requires Plays(c, s, first, mid) && Plays(c, mid, second, t)
    ensures Plays(c, s, first + second, t)
  {
    if second == [] {
      assert first + second == first;
    } else {
      var last := |second| - 1;
      PlayBoth(c, s, first, mid, second[..last], After(c, mid, second[..last]).value);
      assert (first + second)[..|first + second| - 1] == first + second[..last];
    }
  }

  lemma {:induction false} PlayKeepsInv(c: Config, s: State, script: seq<Step>, t: State)
    requires Inv(c, s) && Plays(c, s, script, t)
    ensures Inv(c, t)
  {
    hide Inv, Enabled, Apply;
    if script != [] {
      var last := |script| - 1;
      var mid := After(c, s, script[..last]).value;
      PlayKeepsInv(c, s, script[..last], mid);
      StepKeepsInv(c, mid, script[last]);
    }
  }

  lemma {:induction false} PlayExtendsRun(c: Config, run: seq<State>, script: seq<Step>, t: State)
      returns (longer: seq<State>)
    requires IsRun(c, run) && Plays(c, run[|run| - 1], script, t)
    ensures IsRun(c, longer) && run <= longer && longer[|longer| - 1] == t
  {
    assert |run| > 0;
    hide IsRun, Enabled, Apply;
    longer := run;
    if script != [] {
      var last := |script| - 1;
      var mid := After(c, run[|run| - 1], script[..last]).value;
      var most := PlayExtendsRun(c, run, script[..last], mid);
      ExtendRun(c, most, script[last]);
      longer := most + [t];
    }
  }

  /** What can be played from a state that a run has reached is part of a longer run. */
  lemma Performed(c: Config, script: seq<Step>, t: State) returns (run: seq<State>)
    requires Plays(c, INITIAL, script, t)
    ensures IsRun(c, run) && run[|run| - 1] == t
  {
    run := PlayExtendsRun(c, [INITIAL], script, t);
  }

  // No publisher takes a step.
  predicate NoPublisher(script: seq<Step>) {
    forall st | st in script :: !st.Publish?
  }

  // Every publisher that locks an event found it due at time `at`.
  predicate LocksAt(script: seq<Step>, at: int) {
    forall st | st in script && st.Publish? && st.publish.LockEvent? :: st.publish.at == at
  }

  /* ----- What a process does when it finds no lock in its way ----- */

  ghost predicate Unlocked(s: State) {
    forall b | b in s.sessions :: s.sessions[b].owners == {} && s.sessions[b].rows == {} && s.sessions[b].evs == {}
  }

  // What mark_queued stages.
  function Marked(job: Job, j: nat, at: int): map<nat, Job> {
    if job.status == Pending then map[j := Updated(job, MarkQueued, at)] else map[]
  }

  predicate Dispatchable(s: State, e: nat, at: int) {
    && e in s.events && s.events[e].publishedAt.None? && s.events[e].job in s.jobs && ClaimedAt(s.events[e], at)
    && s.jobs[s.events[e].job].status in {Pending, Queued}
    && s.events[e].payload == Dispatch(e, s.events[e].job)
  }

  // A publisher has marked the job queued, and is about to send.
  function Prepared(s: State, a: nat, e: nat, at: int): State
    requires Dispatchable(s, e, at)
  {
    var j := s.events[e].job;
    s.(nextId := s.nextId + 3,
       sessions := s.sessions[a := Session(PubSend(e), {}, {j}, {e}, Marked(s.jobs[j], j, at), map[])])
  }

  lemma PrepareEvent(c: Config, s: State, a: nat, e: nat, at: int) returns (script: seq<Step>)
    requires Unlocked(s) && a !in s.sessions && Dispatchable(s, e, at)
    ensures Plays(c, s, script, Prepared(s, a, e, at)) && LocksAt(script, at)
  {
    hide After;
    var j := s.events[e].job;
    script := Begin(c, s);
    var s1 := With(s, a, Session(PubEvent(e), {}, {}, {e}, map[], map[]));
    script := Then(c, s, script, s, Publish(a, LockEvent(e, at)));
    var s2 := With(s1, a, Session(PubJob(e), {}, {j}, {e}, map[], map[]));
    assert Apply(c, s1, Publish(a, LockDispatchedJob)) == s2;
    script := Then(c, s, script, s1, Publish(a, LockDispatchedJob));
    assert Apply(c, s2, Publish(a, Prepare(at))) == Prepared(s, a, e, at);
    script := Then(c, s, script, s2, Publish(a, Prepare(at)));
  }

  lemma Begin(c: Config, s: State) returns (script: seq<Step>)
    ensures script == [] && Plays(c, s, script, s)
  {
    script := [];
  }

  // A publisher has sent its message, and not committed yet.
  function Posted(s: State, a: nat, e: nat, at: int): State
    requires Dispatchable(s, e, at)
  {
    var j, m := s.events[e].job, s.nextId + 3;
    s.(nextId := s.nextId + 4, queue := s.queue[m := Message(j, e, None)],
       sessions := s.sessions[a := Session(PubSent(e, m), {}, {j}, {e}, Marked(s.jobs[j], j, at), map[])])
  }

  lemma Post(c: Config, s: State, a: nat, e: nat, at: int) returns (script: seq<Step>)
    requires Unlocked(s) && a !in s.sessions && Dispatchable(s, e, at)
    ensures Plays(c, s, script, Posted(s, a, e, at)) && LocksAt(script, at)
  {
    hide After;
    script := PrepareEvent(c, s, a, e, at);
    var s1 := Prepared(s, a, e, at);
    assert SendMessage(s1, a) == Posted(s, a, e, at);
    script := Then(c, s, script, s1, Send(a));
  }

  // The message is in the broker, and the publisher's transaction was committed.
  function Dispatched(s: State, e: nat, at: int): State
    requires Dispatchable(s, e, at)
  {
    var j, m := s.events[e].job, s.nextId + 3;
    s.(nextId := s.nextId + 5, queue := s.queue[m := Message(j, e, None)],
       jobs := s.jobs + Marked(s.jobs[j], j, at), events := s.events[e := Published(s.events[e], at)])
  }

  lemma PublishAndCommit(c: Config, s: State, a: nat, e: nat, at: int) returns (script: seq<Step>)
    requires Unlocked(s) && a !in s.sessions && Dispatchable(s, e, at)
    ensures Plays(c, s, script, Dispatched(s, e, at)) && LocksAt(script, at)
  {
    hide After;
    script := Post(c, s, a, e, at);
    var s1 := Posted(s, a, e, at);
    var s2 := Apply(c, s1, Publish(a, Stamp(at)));
    script := Then(c, s, script, s1, Publish(a, Stamp(at)));
    script := Then(c, s, script, s2, Step.Commit(a));
    assert s2.sessions - {a} == s.sessions;
    MergeOne(s.events, e, Published(s.events[e], at));
    assert CommitSession(s2, a) == Dispatched(s, e, at);
  }

  // The message is in the broker, but the publisher's transaction was lost.
  function Duplicated(s: State, e: nat, at: int): State
    requires Dispatchable(s, e, at)
  {
    s.(nextId := s.nextId + 4, queue := s.queue[s.nextId + 3 := Message(s.events[e].job, e, None)])
  }

  lemma PublishAndLose(c: Config, s: State, a: nat, e: nat, at: int) returns (script: seq<Step>)
    requires Unlocked(s) && a !in s.sessions && Dispatchable(s, e, at)
    requires forall m | m in s.queue :: s.queue[m].holder != Some(a)
    ensures Plays(c, s, script, Duplicated(s, e, at)) && LocksAt(script, at)
  {
    hide After;
    script := Post(c, s, a, e, at);
    var s1 := Posted(s, a, e, at);
    script := Then(c, s, script, s1, Crash(a));
    assert s1.sessions - {a} == s.sessions;
    assert Redelivered(s1.queue, a) == s1.queue;
    assert Apply(c, s1, Crash(a)) == Duplicated(s, e, at);
  }

  predicate Startable(c: Config, s: State, m: nat) {
    && m in s.queue && s.queue[m].holder == None && s.queue[m].job in s.jobs
    && var job := s.jobs[s.queue[m].job];
       && job.status == Queued && job.attempts + 1 <= MaxTotalAttempts(job.maxRetries)
       && |RunningOf(s.jobs, job.owner)| < c.maxRunningPerUser
  }

  function NextClaim(s: State, m: nat): Claim
    requires m in s.queue && s.queue[m].job in s.jobs
  {
    var job := s.jobs[s.queue[m].job];
    Claim(s.queue[m].job, s.nextId + 3, job.attempts + 1, job.maxRetries)
  }

  // A worker has claimed the job of the message, and executes it.
  function Started(c: Config, s: State, a: nat, m: nat, at: int): State
    requires Startable(c, s, m)
  {
    var j, claim := s.queue[m].job, NextClaim(s, m);
    s.(nextId := s.nextId + 4, queue := s.queue[m := s.queue[m].(holder := Some(a))],
       jobs := s.jobs[j := Updated(s.jobs[j], MarkRunning("worker", claim.token, at + c.leaseSeconds), at)],
       sessions := s.sessions[a := Idle(Executing(m, claim, false))])
  }

  lemma ClaimAndStart(c: Config, s: State, a: nat, m: nat, at: int) returns (script: seq<Step>)
    requires Unlocked(s) && a !in s.sessions && Startable(c, s, m)
    ensures Plays(c, s, script, Started(c, s, a, m, at)) && NoPublisher(script)
  {
    hide After;
    script := Begin(c, s);
    var s0 := DeliverMessage(s, a, m);
    script := Then(c, s, script, s, Deliver(a, m));
    var locks := LockBoth(c, s0, a, m);
    PlayBoth(c, s, script, s0, locks, WithBoth(s0, a, m));
    var s2 := WithBoth(s0, a, m);
    var runs := CountAndRun(c, s2, a, m, at);
    PlayBoth(c, s, script + locks, s2, runs, Ran(c, s2, a, m, at));
    script := script + locks + runs;
    assert s2.sessions[a := s2.sessions[a]] == s2.sessions;
    assert Ran(c, s2, a, m, at) == Started(c, s, a, m, at);
  }

  // The worker has locked the owner and the job.
  function WithBoth(s: State, a: nat, m: nat): State
    requires m in s.queue && s.queue[m].job in s.jobs
  {
    var j := s.queue[m].job;
    var owner := s.jobs[j].owner;
    s.(nextId := s.nextId + 2, sessions := s.sessions[a := Session(ClaimJob(m), {owner}, {j}, {}, map[], map[])])
  }

  lemma LockBoth(c: Config, s: State, a: nat, m: nat) returns (script: seq<Step>)
    requires Unlocked(s) && a in s.sessions && s.sessions[a] == Idle(Received(m))
    requires m in s.queue && s.queue[m].job in s.jobs
    ensures Plays(c, s, script, WithBoth(s, a, m)) && NoPublisher(script)
  {
    hide After;
    var j := s.queue[m].job;
    var owner := s.jobs[j].owner;
    script := Begin(c, s);
    var s1 := With(s, a, Session(ClaimOwner(m), {owner}, {}, {}, map[], map[]));
    assert Apply(c, s, ToClaim(a, LockOwner)) == s1;
    script := Then(c, s, script, s, ToClaim(a, LockOwner));
    assert Apply(c, s1, ToClaim(a, LockRow)) == WithBoth(s, a, m);
    script := Then(c, s, script, s1, ToClaim(a, LockRow));
  }

  // The worker that had locked both has counted, marked and committed.
  function Ran(c: Config, s: State, a: nat, m: nat, at: int): State
    requires m in s.queue && s.queue[m].job in s.jobs
  {
    var j := s.queue[m].job;
    var claim := Claim(j, s.nextId + 1, s.jobs[j].attempts + 1, s.jobs[j].maxRetries);
    s.(nextId := s.nextId + 2,
       jobs := s.jobs[j := Updated(s.jobs[j], MarkRunning("worker", claim.token, at + c.leaseSeconds), at)],
       sessions := s.sessions[a := Idle(Executing(m, claim, false))])
  }

  lemma CountAndRun(c: Config, s: State, a: nat, m: nat, at: int) returns (script: seq<Step>)
    requires m in s.queue && s.queue[m].job in s.jobs && a in s.sessions
    requires var j := s.queue[m].job;
             && s.sessions[a] == Session(ClaimJob(m), {s.jobs[j].owner}, {j}, {}, map[], map[])
             && s.jobs[j].status == Queued && s.jobs[j].attempts + 1 <= MaxTotalAttempts(s.jobs[j].maxRetries)
             && |RunningOf(s.jobs, s.jobs[j].owner)| < c.maxRunningPerUser
    ensures Plays(c, s, script, Ran(c, s, a, m, at)) && NoPublisher(script)
  {
    hide After;
    var j, job := s.queue[m].job, s.jobs[s.queue[m].job];
    var claim := Claim(j, s.nextId + 1, job.attempts + 1, job.maxRetries);
    var row := Updated(job, MarkRunning("worker", claim.token, at + c.leaseSeconds), at);
    script := Begin(c, s);
    var counted := ClaimCounted(m, |RunningOf(s.jobs, job.owner)|);
    var s1 := With(s, a, Session(counted, {job.owner}, {j}, {}, map[], map[]));
    assert Apply(c, s, ToClaim(a, CountRunning)) == s1;
    script := Then(c, s, script, s, ToClaim(a, CountRunning));
    var s2 := With(s1, a, Session(ClaimReady(m, Some(claim)), {job.owner}, {j}, {}, map[j := row], map[]));
    assert Apply(c, s1, ToClaim(a, Run("worker", at))) == s2;
    script := Then(c, s, script, s1, ToClaim(a, Run("worker", at)));
    MergeOne(s.jobs, j, row);
    assert CommitSession(s2, a) == Ran(c, s, a, m, at);
    script := Then(c, s, script, s2, Step.Commit(a));
  }

  /* ----- Taking back one row ----- */

  // A running row whose lease is over was recovered, and a requeued one has an event.
  function TakenBackRow(s: State, j: nat, at: int): State
    requires j in s.jobs && s.jobs[j].token.Some?
  {
    var u := RecoveryUpdate(s.jobs[j]);
    var jobs := s.jobs[j := Updated(s.jobs[j], u, at)];
    if !u.RequeueRunning? then s.(nextId := s.nextId + 2, jobs := jobs)
    else
      var e := s.nextId + 2;
      s.(nextId := s.nextId + 3, jobs := jobs,
         events := if HasUnpublished(s.events, j) then s.events else s.events[e := DispatchEvent(e, j, at, at)])
  }

  // The session of a recovery that has updated its one row.
  function RecoveringOne(s: State, j: nat, at: int): Session
    requires j in s.jobs && s.jobs[j].token.Some?
  {
    var u := RecoveryUpdate(s.jobs[j]);
    var requeued := if u.RequeueRunning? then Some(j) else None;
    Session(Recovering({}, requeued, at), {s.jobs[j].owner}, {j}, {}, map[j := Updated(s.jobs[j], u, at)], map[])
  }

  lemma UpdateRow(c: Config, s: State, b: nat, j: nat, at: int) returns (script: seq<Step>)
    requires Unlocked(s) && b !in s.sessions && j in s.jobs && s.jobs[j].token.Some? && Expired(s.jobs[j], at)
    ensures Plays(c, s, script, s.(nextId := s.nextId + 2, sessions := s.sessions[b := RecoveringOne(s, j, at)]))
    ensures NoPublisher(script)
  {
    hide After;
    script := Begin(c, s);
    var s1 := With(s, b, Session(Recovering({j}, None, at), {}, {j}, {}, map[], map[]));
    script := Then(c, s, script, s, Recover(b, LockExpired({j}, at)));
    var s2 := With(s1, b, RecoveringOne(s, j, at));
    RowIsRecovered(c, s1, s2, b, j, at);
    script := Then(c, s, script, s1, Recover(b, RecoverOne(j, at)));
    assert s1.sessions[b := RecoveringOne(s, j, at)] == s.sessions[b := RecoveringOne(s, j, at)];
  }

  lemma RecoverRow(c: Config, s: State, b: nat, j: nat, at: int) returns (script: seq<Step>)
    requires Unlocked(s) && b !in s.sessions && j in s.jobs && s.jobs[j].token.Some? && Expired(s.jobs[j], at)
    ensures Plays(c, s, script, TakenBackRow(s, j, at)) && NoPublisher(script)
  {
    hide Plays, RecoveryUpdate, Updated;
    script := UpdateRow(c, s, b, j, at);
    var x := RecoveringOne(s, j, at);
    var s1, row := s.(nextId := s.nextId + 2, sessions := s.sessions[b := x]), x.jobs[j];
    var rest := CommitRow(c, s1, b, j, row, x.phase.requeued, at);
    PlayBoth(c, s, script, s1, rest, CommittedRow(s1, b, j, row, x.phase.requeued, at));
    script := script + rest;
    assert s1.sessions - {b} == s.sessions;
    assert CommittedRow(s1, b, j, row, x.phase.requeued, at) == TakenBackRow(s, j, at);
  }

  lemma RowIsRecovered(c: Config, s: State, t: State, b: nat, j: nat, at: int)
    requires b in s.sessions && s.sessions[b] == Session(Recovering({j}, None, at), {}, {j}, {}, map[], map[])
    requires j in s.jobs && s.jobs[j].token.Some? && OwnerFree(s, b, s.jobs[j].owner)
    requires t == With(s, b, RecoveringOne(s, j, at))
    ensures Enabled(c, s, Recover(b, RecoverOne(j, at))) && Apply(c, s, Recover(b, RecoverOne(j, at))) == t
  {
    assert NextToRecover(s, {j}, j);
    assert {j} - {j} == {} && {} + {s.jobs[j].owner} == {s.jobs[j].owner};
  }

  // A recovery of one row has added the event, if there is to be one, and committed.
  function CommittedRow(s: State, b: nat, j: nat, row: Job, requeued: Option<nat>, at: int): State {
    if requeued.None? then s.(jobs := s.jobs[j := row], sessions := s.sessions - {b})
    else
      var e := s.nextId;
      s.(nextId := e + 1, jobs := s.jobs[j := row], sessions := s.sessions - {b},
         events := if HasUnpublished(s.events, j) then s.events else s.events[e := DispatchEvent(e, j, at, at)])
  }

  lemma CommitRow(c: Config, s: State, b: nat, j: nat, row: Job, requeued: Option<nat>, at: int)
      returns (script: seq<Step>)
    requires b in s.sessions && (requeued.Some? ==> requeued == Some(j))
    requires exists owner: nat ::
               s.sessions[b] == Session(Recovering({}, requeued, at), {owner}, {j}, {}, map[j := row], map[])
    ensures Plays(c, s, script, CommittedRow(s, b, j, row, requeued, at)) && NoPublisher(script)
  {
    hide After;
    script := Begin(c, s);
    var s1 := s;
    if requeued.Some? {
      var x := s.sessions[b];
      s1 := With(s, b, x.(phase := Recovering({}, None, at), events := EventIfAbsent(s, x, j, at, at)));
      assert Apply(c, s, Recover(b, RecoverEvent(at))) == s1;
      script := Then(c, s, script, s, Recover(b, RecoverEvent(at)));
      MergeOne(s.events, s.nextId, DispatchEvent(s.nextId, j, at, at));
    }
    MergeOne(s.jobs, j, row);
    assert s.events + map[] == s.events && s1.sessions - {b} == s.sessions - {b};
    script := Then(c, s, script, s1, Step.Commit(b));
  }
}
