/** Runs of the protocol that show what it does not promise. */
module Scenarios {
  import opened Wrappers
  import opened JobState
  import opened JobRows
  import opened Outbox
  import opened Protocol
  import opened ProtocolInvariant
  import opened ProtocolCommit
  import opened ProtocolRuns
  import opened ProtocolTakeover
  import opened Scripts
  import opened Cluster
  import opened Deadlock
  import W = JobWorker

  // The script leads from the empty system to `s`.
  ghost predicate Reaches(c: Config, script: seq<Step>, s: State) {
    Plays(c, INITIAL, script, s) && Inv(c, s)
  }

  lemma StartOfRun(c: Config) returns (script: seq<Step>)
    ensures script == [] && Reaches(c, script, INITIAL) && Unlocked(INITIAL)
    ensures RunningOf(INITIAL.jobs, 0) == {} && RunningOf(INITIAL.jobs, 1) == {} && RunningOf(INITIAL.jobs, 2) == {}
  {
    script := [];
  }

  lemma Take(c: Config, script: seq<Step>, s: State, st: Step) returns (longer: seq<Step>)
    requires Reaches(c, script, s) && Enabled(c, s, st)
    ensures longer == script + [st] && Reaches(c, longer, Apply(c, s, st))
  {
    hide Inv, Enabled, Apply;
    longer := Then(c, INITIAL, script, s, st);
    StepKeepsInv(c, s, st);
  }

  lemma GoOn(c: Config, script: seq<Step>, s: State, more: seq<Step>, t: State) returns (longer: seq<Step>)
    requires Reaches(c, script, s) && Plays(c, s, more, t)
    ensures longer == script + more && Reaches(c, longer, t)
  {
    hide Inv, Enabled, Apply, After;
    longer := script + more;
    PlayBoth(c, INITIAL, script, s, more, t);
    PlayKeepsInv(c, s, more, t);
  }

  lemma IdsAreUnused(c: Config, s: State)
    requires Inv(c, s)
    ensures forall j | j in s.jobs :: j < s.nextId
    ensures forall j | j in s.jobs && s.jobs[j].token.Some? :: s.jobs[j].token.value < s.nextId
    ensures forall e | e in s.events :: e < s.nextId && s.events[e].job in s.jobs
    ensures forall m | m in s.queue :: m < s.nextId
    ensures forall m | m in s.queue && s.queue[m].holder.Some? :: s.queue[m].holder.value in s.sessions
  {
  }

  /* ----- From the API to a running job ----- */

  // A new job, queued, with its message in the broker.
  function QueuedUp(s: State, owner: nat, at: int): State {
    var j, e, m := s.nextId, s.nextId + 1, s.nextId + 5;
    s.(nextId := s.nextId + 7,
       jobs := s.jobs[j := Updated(NewJob(owner, 3, at), MarkQueued, at)],
       events := s.events[e := Published(DispatchEvent(e, j, at, at), at)],
       queue := s.queue[m := Message(j, e, None)])
  }

  lemma QueueUp(c: Config, s: State, owner: nat, a: nat, at: int) returns (script: seq<Step>)
    requires Unlocked(s) && a !in s.sessions
    ensures Plays(c, s, script, QueuedUp(s, owner, at))
  {
    hide After;
    var j, e := s.nextId, s.nextId + 1;
    var s1 := CreateJob(s, owner, 3, at);
    var create := Begin(c, s);
    create := Then(c, s, create, s, Create(owner, 3, at));
    var publish := PublishAndCommit(c, s1, a, e, at);
    assert s1.jobs + Marked(s1.jobs[j], j, at) == s.jobs[j := Updated(NewJob(owner, 3, at), MarkQueued, at)];
    assert s1.events[e := Published(s1.events[e], at)] == s.events[e := Published(DispatchEvent(e, j, at, at), at)];
    assert Dispatched(s1, e, at) == QueuedUp(s, owner, at);
    PlayBoth(c, s, create, s1, publish, QueuedUp(s, owner, at));
    script := create + publish;
  }

  // From `s` to `t`, job `j` was created, and session `a` runs it.
  ghost predicate Launched(c: Config, s: State, t: State, owner: nat, a: nat, j: nat, at: int) {
    && j == s.nextId < t.nextId && j !in s.jobs
    && (exists token: nat ::
          && t.jobs == s.jobs[j := LaunchedRow(c, owner, token, at)]
          && exists m: nat :: t.sessions == s.sessions[a := Idle(Executing(m, Claim(j, token, 1, 3), false))])
    && !HasUnpublished(t.events, j)
  }

  function LaunchedRow(c: Config, owner: nat, token: nat, at: int): Job {
    Updated(Updated(NewJob(owner, 3, at), MarkQueued, at), MarkRunning("worker", token, at + c.leaseSeconds), at)
  }

  lemma LaunchState(c: Config, s: State, owner: nat, a: nat, at: int)
    requires |RunningOf(s.jobs, owner)| < c.maxRunningPerUser
    requires (forall j | j in s.jobs :: j < s.nextId) && forall e | e in s.events :: e < s.nextId
    requires forall e | e in s.events :: s.events[e].job in s.jobs
    ensures Startable(c, QueuedUp(s, owner, at), s.nextId + 5)
    ensures Launched(c, s, Started(c, QueuedUp(s, owner, at), a, s.nextId + 5, at), owner, a, s.nextId, at)
  {
    var q, j, m := QueuedUp(s, owner, at), s.nextId, s.nextId + 5;
    assert RunningOf(q.jobs, owner) == RunningOf(s.jobs, owner);
    var t, token := Started(c, q, a, m, at), q.nextId + 3;
    assert t.jobs == s.jobs[j := LaunchedRow(c, owner, token, at)];
    assert t.sessions == s.sessions[a := Idle(Executing(m, Claim(j, token, 1, 3), false))];
  }

  lemma Launch(c: Config, script: seq<Step>, s: State, owner: nat, a: nat, at: int)
      returns (longer: seq<Step>, t: State, j: nat)
    requires Reaches(c, script, s) && Unlocked(s) && a !in s.sessions
    requires |RunningOf(s.jobs, owner)| < c.maxRunningPerUser
    ensures Reaches(c, longer, t) && Unlocked(t) && Launched(c, s, t, owner, a, j, at)
  {
    hide Plays, Inv, Launched;
    IdsAreUnused(c, s);
    j := s.nextId;
    var q := QueuedUp(s, owner, at);
    var more := QueueUp(c, s, owner, a, at);
    longer := GoOn(c, script, s, more, q);
    LaunchState(c, s, owner, a, at);
    t := Started(c, q, a, j + 5, at);
    more := ClaimAndStart(c, q, a, j + 5, at);
    longer := GoOn(c, longer, q, more, t);
  }

  /* ----- Two recoveries that wait for each other ----- */

  const TWO_AT_ONCE: Config := Config(2, 60)

  lemma StartedRowCounts(jobs: map<nat, Job>, j: nat, row: Job, owner: nat)
    requires j !in jobs && row.status == Running
    ensures |RunningOf(jobs[j := row], owner)| == |RunningOf(jobs, owner)| + if row.owner == owner then 1 else 0
  {
    assert RunningOf(jobs[j := row], owner) == RunningOf(jobs, owner) + if row.owner == owner then {j} else {};
  }

  // The running jobs `first` and `second` of the owners, of the same age.
  ghost predicate Pair(s: State, first: nat, second: nat, owner: nat, other: nat) {
    && first in s.jobs && second in s.jobs && first < second
    && Overdue(s.jobs[first], owner) && Overdue(s.jobs[second], other)
  }

  // A running job that was created at 0, with a lease of a minute.
  predicate Overdue(job: Job, owner: nat) {
    && job.owner == owner && job.status == Running && job.token.Some? && job.createdAt == 0
    && job.leaseExpiresAt == Some(60) && job.attempts == 1 && job.maxRetries == 3
  }

  lemma LaunchPair(script: seq<Step>, s: State, owner: nat, other: nat, a: nat, b: nat)
      returns (longer: seq<Step>, t: State, first: nat, second: nat)
    requires Reaches(TWO_AT_ONCE, script, s) && Unlocked(s) && a !in s.sessions && b !in s.sessions && a != b
    requires owner != other && |RunningOf(s.jobs, owner)| <= 1 && |RunningOf(s.jobs, other)| <= 1
    ensures Reaches(TWO_AT_ONCE, longer, t) && Unlocked(t) && Pair(t, first, second, owner, other)
    ensures (forall k | k in s.jobs :: k in t.jobs && t.jobs[k] == s.jobs[k] && k < first)
    ensures t.jobs.Keys == s.jobs.Keys + {first, second}
    ensures t.sessions.Keys == s.sessions.Keys + {a, b}
    ensures |RunningOf(t.jobs, owner)| == |RunningOf(s.jobs, owner)| + 1
    ensures |RunningOf(t.jobs, other)| == |RunningOf(s.jobs, other)| + 1
  {
    hide Plays, Inv, Unlocked, RunningOf;
    IdsAreUnused(TWO_AT_ONCE, s);
    var mid;
    longer, mid, first := Launch(TWO_AT_ONCE, script, s, owner, a, 0);
    IdsAreUnused(TWO_AT_ONCE, mid);
    StartedRowCounts(s.jobs, first, mid.jobs[first], owner);
    StartedRowCounts(s.jobs, first, mid.jobs[first], other);
    longer, t, second := Launch(TWO_AT_ONCE, longer, mid, other, b, 0);
    StartedRowCounts(mid.jobs, second, t.jobs[second], owner);
    StartedRowCounts(mid.jobs, second, t.jobs[second], other);
  }

  // Recovery `b` has recovered the first of its two rows, holds its owner, and turns to the second.
  ghost predicate Halfway(s: State, b: nat, first: nat, second: nat, owner: nat) {
    && b in s.sessions && s.sessions[b].phase == Recovering({second}, None, 61)
    && s.sessions[b].owners == {owner} && s.sessions[b].rows == {first, second}
  }

  lemma RecoverFirst(c: Config, script: seq<Step>, s: State, b: nat, first: nat, second: nat, owner: nat, other: nat)
      returns (longer: seq<Step>, t: State)
    requires Reaches(c, script, s) && Pair(s, first, second, owner, other) && b !in s.sessions
    requires forall x | x in s.sessions :: {first, second} !! s.sessions[x].rows && owner !in s.sessions[x].owners
    ensures Reaches(c, longer, t) && t.jobs == s.jobs && Halfway(t, b, first, second, owner)
    ensures t.sessions.Keys == s.sessions.Keys + {b} && forall x | x in s.sessions :: t.sessions[x] == s.sessions[x]
  {
    hide Plays, Inv, Enabled, Apply, RecoveryUpdate, Updated, EventIfAbsent;
    var rows, row := {first, second}, Updated(s.jobs[first], RecoveryUpdate(s.jobs[first]), 61);
    var s1 := With(s, b, Session(Recovering(rows, None, 61), {}, rows, {}, map[], map[]));
    RowsAreLocked(c, s, b, rows);
    longer := Take(c, script, s, Recover(b, LockExpired(rows, 61)));
    var x := Session(Recovering({second}, Some(first), 61), {owner}, rows, {}, map[first := row], map[]);
    var s2 := With(s1, b, x);
    FirstRowIsRecovered(c, s1, s2, b, first, second, owner, other);
    longer := Take(c, longer, s1, Recover(b, RecoverOne(first, 61)));
    FirstRowHasItsEvent(c, s2, b, first);
    t := Apply(c, s2, Recover(b, RecoverEvent(61)));
    longer := Take(c, longer, s2, Recover(b, RecoverEvent(61)));
  }

  lemma FirstRowHasItsEvent(c: Config, s: State, b: nat, first: nat)
    requires b in s.sessions && s.sessions[b].phase.Recovering? && s.sessions[b].phase.requeued == Some(first)
    ensures var st, x := Recover(b, RecoverEvent(61)), s.sessions[b];
            && Enabled(c, s, st) && Apply(c, s, st).jobs == s.jobs
            && exists events :: Apply(c, s, st).sessions ==
                 s.sessions[b := x.(phase := Recovering(x.phase.todo, None, x.phase.readAt), events := events)]
  {
    var x := s.sessions[b];
    var events := EventIfAbsent(s, x, first, 61, 61);
    assert Apply(c, s, Recover(b, RecoverEvent(61))).sessions ==
           s.sessions[b := x.(phase := Recovering(x.phase.todo, None, x.phase.readAt), events := events)];
  }

  lemma RowsAreLocked(c: Config, s: State, b: nat, rows: set<nat>)
    requires b !in s.sessions && forall j | j in rows :: j in s.jobs && Expired(s.jobs[j], 61) && RowFree(s, b, j)
    ensures var st := Recover(b, LockExpired(rows, 61));
            && Enabled(c, s, st)
            && Apply(c, s, st) == With(s, b, Session(Recovering(rows, None, 61), {}, rows, {}, map[], map[]))
  {
  }

  lemma FirstRowIsRecovered(c: Config, s: State, t: State, b: nat, first: nat, second: nat, owner: nat, other: nat)
    requires Pair(s, first, second, owner, other) && b in s.sessions
    requires s.sessions[b] == Session(Recovering({first, second}, None, 61), {}, {first, second}, {}, map[], map[])
    requires forall x | x in s.sessions && x != b :: owner !in s.sessions[x].owners
    requires var row := Updated(s.jobs[first], RecoveryUpdate(s.jobs[first]), 61);
             t == With(s, b, Session(Recovering({second}, Some(first), 61), {owner}, {first, second}, {},
                                     map[first := row], map[]))
    ensures Enabled(c, s, Recover(b, RecoverOne(first, 61))) && Apply(c, s, Recover(b, RecoverOne(first, 61))) == t
  {
    assert NextToRecover(s, {first, second}, first);
    assert {first, second} - {first} == {second} && {} + {owner} == {owner};
  }

  lemma TwoPairs() returns (script: seq<Step>, s: State, k1: nat, k2: nat, k3: nat, k4: nat)
    ensures Reaches(TWO_AT_ONCE, script, s) && Unlocked(s) && s.sessions.Keys == {11, 12, 13, 14}
    ensures Pair(s, k1, k2, 1, 2) && Pair(s, k3, k4, 2, 1) && k2 < k3
  {
    hide Reaches, Unlocked;
    var mid;
    script := StartOfRun(TWO_AT_ONCE);
    script, mid, k1, k2 := LaunchPair(script, INITIAL, 1, 2, 11, 12);
    script, s, k3, k4 := LaunchPair(script, mid, 2, 1, 13, 14);
  }

  /**
   Two recovery batches, and no worker, deadlock: each has an owner that the other
   one's next row needs.
   */
  lemma RecoveriesDeadlock() returns (run: seq<State>, a: nat, b: nat)
    ensures IsRun(TWO_AT_ONCE, run) && Knot(run[|run| - 1], {a, b})
    ensures IsRecovery(run[|run| - 1], a) && IsRecovery(run[|run| - 1], b) && a != b
  {
    hide Plays, Inv, Pair, Knot, IsRecovery;
    a, b := 21, 22;
    var script, s, t, k1, k2, k3, k4;
    script, s, k1, k2, k3, k4 := TwoPairs();
    script, t := RecoverFirst(TWO_AT_ONCE, script, s, a, k1, k2, 1, 2);
    PairDependsOnRows(s, t, k1, k2, 1, 2);
    PairDependsOnRows(s, t, k3, k4, 2, 1);
    script, s := RecoverFirst(TWO_AT_ONCE, script, t, b, k3, k4, 2, 1);
    PairDependsOnRows(t, s, k1, k2, 1, 2);
    PairDependsOnRows(t, s, k3, k4, 2, 1);
    CrossedRecoveriesWait(s, a, b, k1, k2, k3, k4);
    run := Performed(TWO_AT_ONCE, script, s);
  }

  lemma PairDependsOnRows(s: State, t: State, first: nat, second: nat, owner: nat, other: nat)
    requires Pair(s, first, second, owner, other) && t.jobs == s.jobs
    ensures Pair(t, first, second, owner, other) && first < second
  {
  }

  lemma CrossedRecoveriesWait(s: State, a: nat, b: nat, k1: nat, k2: nat, k3: nat, k4: nat)
    requires a != b && Halfway(s, a, k1, k2, 1) && Halfway(s, b, k3, k4, 2)
    requires Pair(s, k1, k2, 1, 2) && Pair(s, k3, k4, 2, 1)
    ensures Knot(s, {a, b}) && IsRecovery(s, a) && IsRecovery(s, b)
  {
    assert NextToRecover(s, {k2}, k2) && NextToRecover(s, {k4}, k4);
    assert Stuck(s, a, b) && Stuck(s, b, a);
    assert StuckAmong(s, a, {a, b}) && StuckAmong(s, b, {a, b});
  }

  /* ----- A worker and a recovery that wait for each other ----- */

  const ONE_AT_ONCE: Config := Config(1, 60)

  // A job with two messages, because the first publisher lost its commit.
  lemma TwoMessages(c: Config) returns (script: seq<Step>, s: State, j: nat, m: nat, n: nat)
    ensures Reaches(c, script, s) && s.sessions == map[] && m != n
    ensures s.jobs == map[j := Updated(NewJob(0, 3, 0), MarkQueued, 0)] && !HasUnpublished(s.events, j)
    ensures m in s.queue && n in s.queue && s.queue[m].job == s.queue[n].job == j
    ensures s.queue[m].holder == None && s.queue[n].holder == None
  {
    hide Plays, Inv;
    script := StartOfRun(c);
    script := Take(c, script, INITIAL, Create(0, 3, 0));
    var s1 := CreateJob(INITIAL, 0, 3, 0);
    var more := PublishAndLose(c, s1, 9, 1, 0);
    var s2 := Duplicated(s1, 1, 0);
    script := GoOn(c, script, s1, more, s2);
    more := PublishAndCommit(c, s2, 9, 1, 0);
    s := Dispatched(s2, 1, 0);
    script := GoOn(c, script, s2, more, s);
    j, m, n := 0, 5, 9;
    assert s1.jobs + Marked(s1.jobs[0], 0, 0) == map[0 := Updated(NewJob(0, 3, 0), MarkQueued, 0)];
  }

  /**
   A worker with a duplicate message and a recovery of the same job deadlock: the
   worker locks the owner first, and the recovery the job.
   */
  lemma WorkerAndRecoveryDeadlock() returns (run: seq<State>, a: nat, b: nat)
    ensures IsRun(ONE_AT_ONCE, run) && Knot(run[|run| - 1], {a, b})
    ensures IsClaimant(run[|run| - 1], a) && IsRecovery(run[|run| - 1], b)
  {
    hide Plays, Inv, Knot;
    a, b := 6, 7;
    var script, s, j, m, n;
    script, s, j, m, n := TwoMessages(ONE_AT_ONCE);
    assert RunningOf(s.jobs, 0) == {};
    var s1 := Started(ONE_AT_ONCE, s, 8, m, 0);
    var more := ClaimAndStart(ONE_AT_ONCE, s, 8, m, 0);
    script := GoOn(ONE_AT_ONCE, script, s, more, s1);
    script, s := LockAgainstEachOther(script, s1, a, b, j, n);
    run := Performed(ONE_AT_ONCE, script, s);
  }

  lemma LockAgainstEachOther(script: seq<Step>, s: State, a: nat, b: nat, j: nat, n: nat)
      returns (longer: seq<Step>, t: State)
    requires Reaches(ONE_AT_ONCE, script, s) && Unlocked(s) && a !in s.sessions && b !in s.sessions && a != b
    requires j in s.jobs && Overdue(s.jobs[j], 0)
    requires n in s.queue && s.queue[n].job == j && s.queue[n].holder == None
    ensures Reaches(ONE_AT_ONCE, longer, t) && Knot(t, {a, b}) && IsClaimant(t, a) && IsRecovery(t, b)
  {
    hide Plays, Inv;
    var s1 := With(s, b, Session(Recovering({j}, None, 61), {}, {j}, {}, map[], map[]));
    assert Apply(ONE_AT_ONCE, s, Recover(b, LockExpired({j}, 61))) == s1;
    longer := Take(ONE_AT_ONCE, script, s, Recover(b, LockExpired({j}, 61)));
    var s2 := DeliverMessage(s1, a, n);
    longer := Take(ONE_AT_ONCE, longer, s1, Deliver(a, n));
    t := With(s2, a, Session(ClaimOwner(n), {0}, {}, {}, map[], map[]));
    assert Apply(ONE_AT_ONCE, s2, ToClaim(a, LockOwner)) == t;
    longer := Take(ONE_AT_ONCE, longer, s2, ToClaim(a, LockOwner));
    CrossedLocksWait(t, a, b, j, n);
  }

  lemma CrossedLocksWait(s: State, a: nat, b: nat, j: nat, n: nat)
    requires a in s.sessions && b in s.sessions && a != b && j in s.jobs && s.jobs[j].owner == 0
    requires n in s.queue && s.queue[n].job == j
    requires s.sessions[a] == Session(ClaimOwner(n), {0}, {}, {}, map[], map[])
    requires s.sessions[b] == Session(Recovering({j}, None, 61), {}, {j}, {}, map[], map[])
    ensures Knot(s, {a, b}) && IsClaimant(s, a) && IsRecovery(s, b)
  {
    assert NextToRecover(s, {j}, j);
    assert Stuck(s, a, b) && Stuck(s, b, a);
    assert StuckAmong(s, a, {a, b}) && StuckAmong(s, b, {a, b});
  }

  /* ----- Two executions of one job at a time ----- */

  // Two sessions execute job `j`, and the claim of the second one is the row's.
  ghost predicate BothExecute(s: State, a: nat, b: nat, x: Claim, y: Claim) {
    && a != b && x.job == y.job && x.token != y.token && Holds(s, a, x) && Holds(s, b, y)
    && s.sessions[a].phase.Executing? && s.sessions[b].phase.Executing?
    && y.job in s.jobs && s.jobs[y.job].token == Some(y.token)
  }

  lemma ExecuteTwice() returns (script: seq<Step>, s: State, a: nat, b: nat, x: Claim, y: Claim)
    ensures Reaches(ONE_AT_ONCE, script, s) && BothExecute(s, a, b, x, y)
  {
    hide Plays, Inv;
    a, b := 1, 3;
    var s0, j, more;
    script := StartOfRun(ONE_AT_ONCE);
    script, s0, j := Launch(ONE_AT_ONCE, script, INITIAL, 0, a, 0);
    x := s0.sessions[a].phase.claim;
    var s1 := TakenBackRow(s0, j, 61);
    more := RecoverRow(ONE_AT_ONCE, s0, 2, j, 61);
    script := GoOn(ONE_AT_ONCE, script, s0, more, s1);
    var e, m := s0.nextId + 2, s0.nextId + 6;
    var s2 := Dispatched(s1, e, 61);
    more := PublishAndCommit(ONE_AT_ONCE, s1, 9, e, 61);
    script := GoOn(ONE_AT_ONCE, script, s1, more, s2);
    assert s2.jobs == s1.jobs && s2.jobs == map[j := s1.jobs[j]];
    assert RunningOf(s2.jobs, 0) == {};
    s, y := Started(ONE_AT_ONCE, s2, b, m, 61), NextClaim(s2, m);
    IdsAreUnused(ONE_AT_ONCE, s0);
    more := ClaimAndStart(ONE_AT_ONCE, s2, b, m, 61);
    script := GoOn(ONE_AT_ONCE, script, s2, more, s);
  }

  /**
   Executions of one job can overlap: the lease of the first one is over while its
   handler still runs, the job is recovered, and a second worker starts it.
   */
  lemma ExecutionsOverlap() returns (run: seq<State>, a: nat, b: nat, x: Claim, y: Claim)
    ensures IsRun(ONE_AT_ONCE, run) && BothExecute(run[|run| - 1], a, b, x, y)
    ensures exists k | 0 <= k < |run| - 1 :: TakenBack(run, k, x)
  {
    hide Plays, Inv, IsRun, TakenBack;
    var script, s;
    script, s, a, b, x, y := ExecuteTwice();
    run := Performed(ONE_AT_ONCE, script, s);
    CurrentUnlessTakenBack(ONE_AT_ONCE, run, |run| - 1, a, x);
  }

  /* ----- A retry before its time ----- */

  // The execution failed, and the job waits for its retry, with the event it had or a new one.
  function RetryPlanned(s: State, a: nat, at: int, availableAt: int): State
    requires a in s.sessions && s.sessions[a].phase.Executing? && s.sessions[a].phase.claim.job in s.jobs
  {
    var m, claim := s.sessions[a].phase.m, s.sessions[a].phase.claim;
    var j, e := claim.job, s.nextId + 2;
    s.(nextId := s.nextId + 3,
       jobs := s.jobs[j := Updated(s.jobs[j], RequeueRunning(claim.token, "error"), at)],
       events := if HasUnpublished(s.events, j) then s.events else s.events[e := DispatchEvent(e, j, availableAt, at)],
       sessions := s.sessions[a := Idle(Handled(m))])
  }

  // The step plans the retry of a job for time `availableAt`.
  predicate PlansRetry(st: Step, availableAt: int) {
    st.Execute? && st.execute.SettleEvent? && st.execute.availableAt == availableAt
  }

  lemma FailAndPlanRetry(c: Config, s: State, a: nat, at: int, availableAt: int) returns (script: seq<Step>)
    requires Unlocked(s) && a in s.sessions && s.sessions[a].phase.Executing?
    requires s.sessions[a] == Idle(s.sessions[a].phase)
    requires var claim := s.sessions[a].phase.claim;
             && claim.attempt < MaxTotalAttempts(claim.maxRetries)
             && claim.job in s.jobs && Matches(s.jobs[claim.job], RequeueRunning(claim.token, "error"))
    ensures Plays(c, s, script, RetryPlanned(s, a, at, availableAt))
    ensures exists st | st in script :: PlansRetry(st, availableAt)
  {
    hide After;
    var m, claim, v := s.sessions[a].phase.m, s.sessions[a].phase.claim, Retry("error");
    var j := claim.job;
    var row := Updated(s.jobs[j], RequeueRunning(claim.token, "error"), at);
    script := Begin(c, s);
    var s1 := With(s, a, Idle(Settling(m, claim, v)));
    script := Then(c, s, script, s, Execute(a, Finish(v)));
    var s2 := With(s1, a, Session(SettleRequeued(m, claim, v), {}, {j}, {}, map[j := row], map[]));
    assert Apply(c, s1, Execute(a, SettleUpdate(at))) == s2;
    script := Then(c, s, script, s1, Execute(a, SettleUpdate(at)));
    var s3 := RetryCommitted(s2, a, m, j, row, at, availableAt);
    var rest := AddEventAndCommit(c, s2, a, m, claim, row, at, availableAt);
    PlayBoth(c, s, script, s2, rest, s3);
    script := script + rest;
    assert s2.sessions[a := Idle(Handled(m))] == s.sessions[a := Idle(Handled(m))];
    assert s3 == RetryPlanned(s, a, at, availableAt);
  }

  // The requeued row and its event, if there had to be a new one, are visible.
  function RetryCommitted(s: State, a: nat, m: nat, j: nat, row: Job, at: int, availableAt: int): State {
    var e := s.nextId;
    s.(nextId := s.nextId + 1, jobs := s.jobs[j := row],
       events := if HasUnpublished(s.events, j) then s.events else s.events[e := DispatchEvent(e, j, availableAt, at)],
       sessions := s.sessions[a := Idle(Handled(m))])
  }

  lemma AddEventAndCommit(c: Config, s: State, a: nat, m: nat, claim: Claim, row: Job, at: int, availableAt: int)
      returns (script: seq<Step>)
    requires a in s.sessions
    requires s.sessions[a] ==
             Session(SettleRequeued(m, claim, Retry("error")), {}, {claim.job}, {}, map[claim.job := row], map[])
    ensures Plays(c, s, script, RetryCommitted(s, a, m, claim.job, row, at, availableAt))
    ensures exists st | st in script :: PlansRetry(st, availableAt)
  {
    hide After;
    var j, e, x := claim.job, s.nextId, s.sessions[a];
    var events := EventIfAbsent(s, x, j, availableAt, at);
    script := Begin(c, s);
    var s1 := With(s, a, x.(phase := SettleReady(m, claim, Retry("error")), events := events));
    var st := Execute(a, SettleEvent(availableAt, at));
    assert Apply(c, s, st) == s1;
    script := Then(c, s, script, s, st);
    MergeOne(s.jobs, j, row);
    MergeOne(s.events, e, DispatchEvent(e, j, availableAt, at));
    assert s.events + map[] == s.events;
    assert s1.sessions[a := Idle(Handled(m))] == s.sessions[a := Idle(Handled(m))];
    script := Then(c, s, script, s1, Step.Commit(a));
    assert PlansRetry(st, availableAt);
  }

  // Session 3 executes the second attempt of the only job, whose event `e` is due after its backoff.
  ghost predicate SecondAttempt(s: State, j: nat, e: nat) {
    && Unlocked(s) && s.sessions.Keys == {1, 3} && s.jobs.Keys == {j} && e in s.events
    && s.events[e] == DispatchEvent(e, j, 100 + W.RetryBackoffSeconds(1), 100)
    && var job, p := s.jobs[j], s.sessions[3].phase;
       && job.status == Running && job.attempts == 2 && job.updatedAt == 101 && job.owner == 0 && job.maxRetries == 3
       && s.sessions[3] == Idle(p) && p.Executing? && p.claim.job == j && job.token == Some(p.claim.token)
       && p.claim.attempt == 2 && p.claim.maxRetries == 3
  }

  lemma RetryAtOnce() returns (script: seq<Step>, s: State, j: nat, e: nat)
    ensures Reaches(ONE_AT_ONCE, script, s) && SecondAttempt(s, j, e)
  {
    hide Plays, Inv;
    var s0, m, n, more;
    script, s0, j, m, n := TwoMessages(ONE_AT_ONCE);
    assert RunningOf(s0.jobs, 0) == {};
    var s1 := Started(ONE_AT_ONCE, s0, 1, m, 100);
    more := ClaimAndStart(ONE_AT_ONCE, s0, 1, m, 100);
    script := GoOn(ONE_AT_ONCE, script, s0, more, s1);
    var s2 := RetryPlanned(s1, 1, 100, 105);
    more := FailAndPlanRetry(ONE_AT_ONCE, s1, 1, 100, 105);
    script := GoOn(ONE_AT_ONCE, script, s1, more, s2);
    assert s2.jobs == map[j := s2.jobs[j]];
    assert RunningOf(s2.jobs, 0) == {};
    s, e := Started(ONE_AT_ONCE, s2, 3, n, 101), s1.nextId + 2;
    more := ClaimAndStart(ONE_AT_ONCE, s2, 3, n, 101);
    script := GoOn(ONE_AT_ONCE, script, s2, more, s);
  }

  /**
   A retry can start before its backoff is over: a duplicate message from an earlier
   publication starts the job at once, while its own event still waits.
   */
  lemma RetryStartsEarly() returns (run: seq<State>, j: nat, e: nat)
    ensures IsRun(ONE_AT_ONCE, run) && j in run[|run| - 1].jobs && Unpublished(run[|run| - 1].events, e, j)
    ensures var job, event := run[|run| - 1].jobs[j], run[|run| - 1].events[e];
            && job.status == Running && job.attempts == 2 && job.updatedAt == 101
            && event.availableAt == 100 + W.RetryBackoffSeconds(1)
  {
    hide Plays, Inv;
    var script, s;
    script, s, j, e := RetryAtOnce();
    run := Performed(ONE_AT_ONCE, script, s);
  }

  /**
   And so can one that finds an event already there: the second retry keeps the first
   one's event, and starts when that is due.
   */
  lemma RetryKeepsAnOldEvent() returns (script: seq<Step>, s: State, j: nat)
    ensures Plays(ONE_AT_ONCE, INITIAL, script, s)
    ensures exists st | st in script :: PlansRetry(st, 102 + W.RetryBackoffSeconds(2))
    ensures j in s.jobs && s.jobs[j].status == Running && s.jobs[j].attempts == 3
    ensures s.jobs[j].updatedAt < 102 + W.RetryBackoffSeconds(2)
  {
    hide Plays, Inv;
    var s0, e, more;
    script, s0, j, e := RetryAtOnce();
    var planned := 102 + W.RetryBackoffSeconds(2);
    assert Unpublished(s0.events, e, j);
    var s1 := RetryPlanned(s0, 3, 102, planned);
    more := FailAndPlanRetry(ONE_AT_ONCE, s0, 3, 102, planned);
    var plan :| plan in more && PlansRetry(plan, planned);
    script := GoOn(ONE_AT_ONCE, script, s0, more, s1);
    var s2, m := Dispatched(s1, e, 105), s1.nextId + 3;
    more := PublishAndCommit(ONE_AT_ONCE, s1, 9, e, 105);
    script := GoOn(ONE_AT_ONCE, script, s1, more, s2);
    assert s2.jobs == map[j := s1.jobs[j]];
    assert RunningOf(s2.jobs, 0) == {};
    s := Started(ONE_AT_ONCE, s2, 4, m, 105);
    more := ClaimAndStart(ONE_AT_ONCE, s2, 4, m, 105);
    script := GoOn(ONE_AT_ONCE, script, s2, more, s);
    assert plan in script;
  }

  /* ----- Every attempt that a job is allowed ----- */

  // Session `n` executes attempt `n` of the only job, which has no event to publish.
  ghost predicate Attempt(s: State, maxRetries: nat, n: nat) {
    && Unlocked(s) && n in s.sessions && (forall b | b in s.sessions :: b <= n)
    && s.jobs.Keys == {0} && !HasUnpublished(s.events, 0)
    && var job, p := s.jobs[0], s.sessions[n].phase;
       && job.status == Running && job.attempts == n && job.owner == 0 && job.maxRetries == maxRetries
       && s.sessions[n] == Idle(p) && p.Executing? && p.claim.job == 0 && job.token == Some(p.claim.token)
       && p.claim.attempt == n && p.claim.maxRetries == maxRetries
  }

  // The only job waits for attempt `n`, with one event, which is due.
  ghost predicate AwaitsAttempt(s: State, maxRetries: nat, n: nat, e: nat) {
    && Unlocked(s) && (forall b | b in s.sessions :: b < n <= 4) && s.jobs.Keys == {0}
    && e in s.events && s.events[e] == DispatchEvent(e, 0, 0, 0)
    && (forall f | f in s.events && f != e :: !Unpublished(s.events, f, 0))
    && var job := s.jobs[0];
       job.status in {Pending, Queued} && job.maxRetries == maxRetries && job.owner == 0 && job.attempts + 1 == n
  }

  lemma SentJobIsStartable(s: State, maxRetries: nat, n: nat, e: nat)
    requires AwaitsAttempt(s, maxRetries, n, e) && n <= (if maxRetries < 3 then maxRetries + 1 else 4)
    ensures Dispatchable(s, e, 0)
    ensures var t := Dispatched(s, e, 0);
            && Unlocked(t) && t.sessions == s.sessions && n !in t.sessions && t.jobs.Keys == {0}
            && !HasUnpublished(t.events, 0) && Startable(ONE_AT_ONCE, t, s.nextId + 3)
            && t.queue[s.nextId + 3].job == 0 && t.jobs[0].owner == 0 && t.jobs[0].maxRetries == maxRetries
            && t.jobs[0].attempts + 1 == n
  {
    var t := Dispatched(s, e, 0);
    assert RunningOf(t.jobs, 0) == {};
  }

  lemma StartNext(script: seq<Step>, s: State, maxRetries: nat, n: nat, e: nat)
      returns (longer: seq<Step>, t: State)
    requires Reaches(ONE_AT_ONCE, script, s) && AwaitsAttempt(s, maxRetries, n, e)
    requires n <= (if maxRetries < 3 then maxRetries + 1 else 4)
    ensures Reaches(ONE_AT_ONCE, longer, t) && Attempt(t, maxRetries, n)
  {
    hide Plays, Inv, Dispatched, Startable;
    SentJobIsStartable(s, maxRetries, n, e);
    var q, m := Dispatched(s, e, 0), s.nextId + 3;
    var more := PublishAndCommit(ONE_AT_ONCE, s, 9, e, 0);
    longer := GoOn(ONE_AT_ONCE, script, s, more, q);
    t := Started(ONE_AT_ONCE, q, n, m, 0);
    more := ClaimAndStart(ONE_AT_ONCE, q, n, m, 0);
    longer := GoOn(ONE_AT_ONCE, longer, q, more, t);
  }

  lemma {:induction false} ReachAttempt(maxRetries: nat, n: nat) returns (script: seq<Step>, s: State)
    requires 1 <= n <= (if maxRetries < 3 then maxRetries + 1 else 4)
    ensures Reaches(ONE_AT_ONCE, script, s) && Attempt(s, maxRetries, n)
  {
    hide Plays, Inv;
    if n == 1 {
      script := StartOfRun(ONE_AT_ONCE);
      script := Take(ONE_AT_ONCE, script, INITIAL, Create(0, maxRetries, 0));
      script, s := StartNext(script, CreateJob(INITIAL, 0, maxRetries, 0), maxRetries, 1, 1);
    } else {
      var s0;
      script, s0 := ReachAttempt(maxRetries, n - 1);
      var s1, e := RetryPlanned(s0, n - 1, 0, 0), s0.nextId + 2;
      var more := FailAndPlanRetry(ONE_AT_ONCE, s0, n - 1, 0, 0);
      script := GoOn(ONE_AT_ONCE, script, s0, more, s1);
      NoOtherEvent(s0, s1, e);
      script, s := StartNext(script, s1, maxRetries, n, e);
    }
  }

  lemma NoOtherEvent(s: State, t: State, e: nat)
    requires !HasUnpublished(s.events, 0) && t.events == s.events[e := DispatchEvent(e, 0, 0, 0)]
    ensures forall f | f in t.events && f != e :: !Unpublished(t.events, f, 0)
  {
    forall f | f in t.events && f != e ensures !Unpublished(t.events, f, 0) {
      assert !Unpublished(s.events, f, 0);
    }
  }

  /** A job is executed as often as it is allowed: once more than its retries, but four times at most. */
  lemma EveryAttemptIsReached(maxRetries: nat) returns (run: seq<State>)
    ensures IsRun(ONE_AT_ONCE, run) && 0 in run[|run| - 1].jobs && run[|run| - 1].jobs[0].maxRetries == maxRetries
    ensures Grants(run, 0) == if maxRetries < 3 then maxRetries + 1 else 4
  {
    hide Plays, Inv;
    var script, s := ReachAttempt(maxRetries, if maxRetries < 3 then maxRetries + 1 else 4);
    run := Performed(ONE_AT_ONCE, script, s);
    GrantsAreTheAttempts(ONE_AT_ONCE, run, 0);
  }

  /* ----- Two publishers that count from the same number ----- */

  // A publisher whose message was not confirmed has rolled back, and is to note the failure.
  lemma FailToPublish(c: Config, s: State, a: nat, e: nat, at: int) returns (script: seq<Step>, t: State)
    requires Unlocked(s) && a !in s.sessions && Dispatchable(s, e, at)
    ensures Plays(c, s, script, t) && Unlocked(t) && t.jobs == s.jobs && t.events == s.events
    ensures var retryAt := at + RetryDelaySeconds(s.events[e].publishAttempts + 1);
            t.sessions == s.sessions[a := Idle(PubFailed(e, retryAt))]
  {
    hide After, RetryDelaySeconds;
    script := PrepareEvent(c, s, a, e, at);
    var s1 := Prepared(s, a, e, at);
    var rollBack := Publish(a, RollBack(at + RetryDelaySeconds(s.events[e].publishAttempts + 1)));
    script := Then(c, s, script, s1, rollBack);
    t := Apply(c, s1, rollBack);
  }

  /**
   The attempts that are counted and the delay need not agree: of two publishers that
   fail with the same event, each delays it as after a first failure.
   */
  lemma FailuresCountFromTheSameNumber() returns (script: seq<Step>, s: State, e: nat)
    ensures Plays(ONE_AT_ONCE, INITIAL, script, s) && e in s.events
    ensures s.events[e].publishAttempts == 2 && s.events[e].availableAt == 0 + RetryDelaySeconds(1)
    ensures RetryDelaySeconds(2) > RetryDelaySeconds(1)
  {
    hide Plays, Inv;
    var more, s1, s2, s3;
    script := StartOfRun(ONE_AT_ONCE);
    script := Take(ONE_AT_ONCE, script, INITIAL, Create(0, 3, 0));
    s1, e := CreateJob(INITIAL, 0, 3, 0), 1;
    more, s2 := FailToPublish(ONE_AT_ONCE, s1, 1, e, 0);
    script := GoOn(ONE_AT_ONCE, script, s1, more, s2);
    more, s3 := FailToPublish(ONE_AT_ONCE, s2, 2, e, 0);
    script := GoOn(ONE_AT_ONCE, script, s2, more, s3);
    script := Take(ONE_AT_ONCE, script, s3, RecordFailure(1, "error"));
    var s4 := RecordPublishFailure(s3, 1, "error");
    script := Take(ONE_AT_ONCE, script, s4, RecordFailure(2, "error"));
    s := RecordPublishFailure(s4, 2, "error");
  }

  /**
   They agree exactly if nobody else's failure was counted since the publisher read
   the number `n` - or if the delay has reached its cap.
   */
  lemma DelaysFollowTheCount(c: Config, s: State, a: nat, e: nat, n: nat, now: int, error: string)
    requires a in s.sessions && s.sessions[a].phase == PubFailed(e, now + RetryDelaySeconds(n + 1))
    requires Enabled(c, s, RecordFailure(a, error)) && e in s.events && s.events[e].publishedAt == None
    ensures var before, after := s.events[e], RecordPublishFailure(s, a, error).events[e];
            after.availableAt == now + RetryDelaySeconds(after.publishAttempts)
            <==> before.publishAttempts == n || (before.publishAttempts >= 9 && n >= 9)
  {
    DelaysAgree(s.events[e].publishAttempts, n);
  }
}
