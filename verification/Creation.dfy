/**
 Idempotent creation: any number of interleaved create_job calls, each reading,
 reserving, inserting under the unique constraint on owner and key, committing, and
 reloading after a conflict.  The calls are linearizable: every run can be replayed
 one call at a time, in an order that agrees with real time.
 */
module Creation {

  // The unique columns of a job row.
  datatype Slot = Slot(owner: nat, key: string)

  datatype Request = Request(slot: Slot, hash: string)

  datatype Answer = Created(job: nat) | Existing(job: nat) | Conflict

  datatype Phase =
    | Reading
    | Reserving
    | Inserting
    | Inserted(job: nat)           // the row is flushed, not yet visible to others
    | Logged(job: nat)             // and the creation log
    | Prepared(job: nat)           // and the dispatch event
    | Committed(job: nat)
    | Reloading                    // another call has the slot
    | Answered(answer: Answer)
    | RateLimited
    | ExpectedAnExistingJob        // the error that should not happen
    | Failed                       // another exception
    | Crashed

  // A call, and the log and event rows that its transaction has written.
  datatype Call = Call(request: Request, phase: Phase, logs: multiset<nat>, events: multiset<nat>)

  // A call that took effect, with the answer that it gives.
  datatype Entry = Entry(call: nat, request: Request, answer: Answer)

  datatype State = State(
    nextId: nat,
    rows: map<nat, Request>,       // committed jobs
    logs: multiset<nat>,           // the jobs with a "Job created" log, as often as they have it
    events: multiset<nat>,         // the jobs with an initial dispatch event
    held: set<nat>,                // calls with a rate limit reservation
    lostReleases: set<nat>,        // calls whose release of it failed
    calls: map<nat, Call>,
    effects: seq<Entry>)           // ghost history: the calls in the order in which they took effect

  const INITIAL: State := State(0, map[], multiset{}, multiset{}, {}, {}, map[], [])

  datatype Step =
    | Begin(a: nat, request: Request)
    | ReadHit(a: nat, job: nat)
    | ReadMiss(a: nat)
    | Reserve(a: nat, available: bool)
    | Limit(a: nat)
    | Insert(a: nat)
    | WriteLog(a: nat)
    | WriteEvent(a: nat)
    | Duplicate(a: nat, released: bool)
    | Commit(a: nat)
    | Return(a: nat)
    | Reload(a: nat, job: nat)
    | ReloadMiss(a: nat)
    | Raise(a: nat, released: bool)
    | Crash(a: nat)

  predicate Taken(rows: map<nat, Request>, slot: Slot) {
    exists j | j in rows :: rows[j].slot == slot
  }

  // The call has inserted its row, and not committed yet.
  predicate Pending(p: Phase) {
    p.Inserted? || p.Logged? || p.Prepared?
  }

  // Another call has inserted a row for the slot and not committed yet, so that an insert must wait.
  predicate Contended(s: State, a: nat, slot: Slot) {
    exists b | b in s.calls && b != a :: s.calls[b].request.slot == slot && Pending(s.calls[b].phase)
  }

  predicate Enabled(s: State, st: Step) {
    if st.Begin? then st.a !in s.calls
    else
      && st.a in s.calls
      && var r, p := s.calls[st.a].request, s.calls[st.a].phase;
         match st
         case ReadHit(_, j) => p.Reading? && j in s.rows && s.rows[j].slot == r.slot
         case ReadMiss(_) => p.Reading? && !Taken(s.rows, r.slot)
         case Reserve(_, _) => p.Reserving?
         case Limit(_) => p.Reserving?
         case Insert(a) => p.Inserting? && !Taken(s.rows, r.slot) && !Contended(s, a, r.slot)
         case WriteLog(_) => p.Inserted?
         case WriteEvent(_) => p.Logged?
         case Duplicate(_, _) => p.Inserting? && Taken(s.rows, r.slot)
         case Commit(_) => p.Prepared?
         case Return(_) => p.Committed?
         case Reload(_, j) => p.Reloading? && j in s.rows && s.rows[j].slot == r.slot
         case ReloadMiss(_) => p.Reloading? && !Taken(s.rows, r.slot)
         case Raise(_, _) => p.Inserting? || Pending(p) || p.Committed?
         case Crash(_) => !Over(p)
         case _ => true
  }

  predicate Over(p: Phase) {
    p.Answered? || p.RateLimited? || p.ExpectedAnExistingJob? || p.Failed? || p.Crashed?
  }

  // _validate_existing_job.
  function Validate(row: Request, j: nat, r: Request): Answer {
    if row.hash != r.hash then Conflict else Existing(j)
  }

  function At(s: State, a: nat, p: Phase): State
    requires a in s.calls
  {
    s.(calls := s.calls[a := s.calls[a].(phase := p)])
  }

  // Call `a` takes effect.
  function Effect(s: State, a: nat, answer: Answer): State
    requires a in s.calls
  {
    s.(effects := s.effects + [Entry(a, s.calls[a].request, answer)])
  }

  // The call gives its reservation back, unless Redis fails.
  function Release(s: State, a: nat, released: bool): State {
    if a !in s.held then s
    else if released then s.(held := s.held - {a})
    else s.(lostReleases := s.lostReleases + {a})
  }

  // The call's transaction writes its log and event rows.
  function Write(s: State, a: nat, p: Phase, logs: multiset<nat>, events: multiset<nat>): State
    requires a in s.calls
  {
    var x := s.calls[a];
    s.(calls := s.calls[a := x.(phase := p, logs := x.logs + logs, events := x.events + events)])
  }

  function Apply(s: State, st: Step): State
    requires Enabled(s, st)
  {
    match st
    case Begin(a, r) => s.(calls := s.calls[a := Call(r, Reading, multiset{}, multiset{})])
    case ReadHit(a, j) =>
      var answer := Validate(s.rows[j], j, s.calls[a].request);
      Effect(At(s, a, Answered(answer)), a, answer)
    case ReadMiss(a) => At(s, a, Reserving)
    case Reserve(a, available) => At(s, a, Inserting).(held := if available then s.held + {a} else s.held)
    case Limit(a) => At(s, a, RateLimited)
    case Insert(a) => At(s, a, Inserted(s.nextId)).(nextId := s.nextId + 1)
    case WriteLog(a) => Write(s, a, Logged(s.calls[a].phase.job), multiset{s.calls[a].phase.job}, multiset{})
    case WriteEvent(a) => Write(s, a, Prepared(s.calls[a].phase.job), multiset{}, multiset{s.calls[a].phase.job})
    case Duplicate(a, released) => Release(At(s, a, Reloading), a, released)
    case Commit(a) =>
      var x := s.calls[a];
      Effect(At(s, a, Committed(x.phase.job)), a, Created(x.phase.job)).(
        rows := s.rows[x.phase.job := x.request], logs := s.logs + x.logs, events := s.events + x.events)
    case Return(a) => At(s, a, Answered(Created(s.calls[a].phase.job)))
    case Reload(a, j) =>
      var answer := Validate(s.rows[j], j, s.calls[a].request);
      Effect(At(s, a, Answered(answer)), a, answer)
    case ReloadMiss(a) => At(s, a, ExpectedAnExistingJob)
    // From `Committed`, an exception is a commit whose confirmation was lost.
    case Raise(a, released) => Release(At(s, a, Failed), a, released)
    case Crash(a) => At(s, a, Crashed)
  }

  ghost predicate Next(s: State, t: State) {
    exists st :: Enabled(s, st) && t == Apply(s, st)
  }

  ghost predicate IsRun(run: seq<State>) {
    && |run| > 0 && run[0] == INITIAL
    && forall i | 0 <= i < |run| - 1 :: Next(run[i], run[i + 1])
  }

  /* ----- The sequential specification: one call at a time ----- */

  datatype Stored = Stored(job: nat, hash: string)

  // The slots taken after the calls in `effects`, one after the other.
  function Replay(effects: seq<Entry>): map<Slot, Stored> {
    if effects == [] then map[]
    else
      var before, e := Replay(effects[..|effects| - 1]), effects[|effects| - 1];
      if e.answer.Created? then before[e.request.slot := Stored(e.answer.job, e.request.hash)] else before
  }

  // The answer of a call that finds the slots as in `taken`.
  predicate Answers(taken: map<Slot, Stored>, e: Entry) {
    var slot := e.request.slot;
    match e.answer
    case Created(_) => slot !in taken
    case Existing(j) => slot in taken && taken[slot] == Stored(j, e.request.hash)
    case Conflict => slot in taken && taken[slot].hash != e.request.hash
  }

  ghost predicate Sequential(effects: seq<Entry>) {
    forall i | 0 <= i < |effects| :: Answers(Replay(effects[..i]), effects[i])
  }

  /* ----- The invariant ----- */

  ghost predicate RowsInv(s: State) {
    && (forall j | j in s.rows :: j < s.nextId)
    && (forall j, k | j in s.rows && k in s.rows && j != k :: s.rows[j].slot != s.rows[k].slot)
    && (forall j :: s.logs[j] == (if j in s.rows then 1 else 0))
    && (forall j :: s.events[j] == (if j in s.rows then 1 else 0))
  }

  ghost predicate InsertsInv(s: State) {
    && (forall a | a in s.calls && Pending(s.calls[a].phase) ::
          && s.calls[a].phase.job < s.nextId && s.calls[a].phase.job !in s.rows
          && !Taken(s.rows, s.calls[a].request.slot))
    && (forall a, b | a in s.calls && b in s.calls && a != b
                      && Pending(s.calls[a].phase) && Pending(s.calls[b].phase) ::
          && s.calls[a].phase.job != s.calls[b].phase.job
          && s.calls[a].request.slot != s.calls[b].request.slot)
  }

  // A transaction has written what its phase says.
  predicate WritesOk(x: Call) {
    match x.phase
    case Logged(j) => x.logs == multiset{j} && x.events == multiset{}
    case Prepared(j) => x.logs == multiset{j} && x.events == multiset{j}
    case Committed(_) => true
    case Answered(_) => true
    case Failed => true
    case Crashed => true
    case _ => x.logs == multiset{} && x.events == multiset{}
  }

  ghost predicate WritesInv(s: State) {
    forall a | a in s.calls :: WritesOk(s.calls[a])
  }

  // The effect of call `a`, if it has one.
  ghost predicate HasEffect(s: State, a: nat, answer: Answer)
    requires a in s.calls
  {
    Entry(a, s.calls[a].request, answer) in s.effects
  }

  ghost predicate CallInv(s: State, a: nat)
    requires a in s.calls
  {
    var p := s.calls[a].phase;
    match p
    case Answered(answer) => HasEffect(s, a, answer)
    case Committed(j) => HasEffect(s, a, Created(j))
    case Reloading => Taken(s.rows, s.calls[a].request.slot)
    case ExpectedAnExistingJob => false
    case _ => true
  }

  ghost predicate CallsInv(s: State) {
    forall a | a in s.calls :: CallInv(s, a)
  }

  ghost predicate MayHaveEffect(p: Phase) {
    p.Answered? || p.Committed? || p.Failed? || p.Crashed?
  }

  ghost predicate EffectsInv(s: State) {
    && Sequential(s.effects)
    && (forall i | 0 <= i < |s.effects| ::
          && s.effects[i].call in s.calls
          && s.calls[s.effects[i].call].request == s.effects[i].request
          && MayHaveEffect(s.calls[s.effects[i].call].phase))
    && (forall i, k | 0 <= i < k < |s.effects| :: s.effects[i].call != s.effects[k].call)
  }

  // The replayed calls leave exactly the committed rows.
  ghost predicate Agrees(taken: map<Slot, Stored>, rows: map<nat, Request>) {
    && (forall j | j in rows :: rows[j].slot in taken && taken[rows[j].slot] == Stored(j, rows[j].hash))
    && (forall slot | slot in taken :: taken[slot].job in rows && rows[taken[slot].job].slot == slot)
  }

  // Whether a call in this phase may have a reservation, when its release, if there was one, was lost or not.
  predicate MayHold(p: Phase, lost: bool) {
    match p
    case Reading => false
    case Reserving => false
    case RateLimited => false
    case Reloading => lost
    case Failed => lost
    case ExpectedAnExistingJob => lost
    case Answered(answer) => answer.Created? || lost
    case _ => true
  }

  // A call that does not end in a new job keeps no reservation, unless its release failed.
  ghost predicate HeldInv(s: State) {
    forall a | a in s.held :: a in s.calls && MayHold(s.calls[a].phase, a in s.lostReleases)
  }

  ghost predicate Inv(s: State) {
    && RowsInv(s) && InsertsInv(s) && WritesInv(s) && EffectsInv(s) && HeldInv(s)
    && CallsInv(s) && Agrees(Replay(s.effects), s.rows)
  }

  lemma AppendEffect(effects: seq<Entry>, e: Entry)
    requires Sequential(effects) && Answers(Replay(effects), e)
    ensures Sequential(effects + [e])
    ensures Replay(effects + [e]) ==
            if e.answer.Created? then Replay(effects)[e.request.slot := Stored(e.answer.job, e.request.hash)]
            else Replay(effects)
  {
    var longer := effects + [e];
    assert longer[..|longer| - 1] == effects;
    forall i | 0 <= i < |longer| ensures Answers(Replay(longer[..i]), longer[i]) {
      assert longer[..i] == effects[..i];
      assert i == |effects| ==> longer[..i] == effects;
    }
  }

  // The three steps at which a call takes effect.
  predicate HasItsEffect(st: Step) {
    st.Commit? || st.ReadHit? || st.Reload?
  }

  // Only call `a` moves, and keeps its request.
  ghost predicate OneCallMoves(s: State, t: State, a: nat) {
    && t.calls.Keys == s.calls.Keys + {a}
    && (forall b | b in s.calls && b != a :: t.calls[b] == s.calls[b])
    && (a in s.calls ==> t.calls[a].request == s.calls[a].request)
  }

  lemma EffectsMoveOneCall(s: State, st: Step)
    requires Enabled(s, st) && HasItsEffect(st)
    ensures OneCallMoves(s, Apply(s, st), st.a)
  {
  }

  lemma ReleasesMoveOneCall(s: State, st: Step)
    requires Enabled(s, st) && (st.Duplicate? || st.Raise?)
    ensures OneCallMoves(s, Apply(s, st), st.a)
  {
    var p := if st.Duplicate? then Reloading else Failed;
    assert Apply(s, st) == Release(At(s, st.a, p), st.a, st.released);
    ReleaseKeepsCalls(At(s, st.a, p), st.a, st.released);
    hide Apply, Enabled, Release;
    assert Apply(s, st).calls == s.calls[st.a := s.calls[st.a].(phase := p)];
  }

  lemma ReleaseKeepsCalls(s: State, a: nat, released: bool)
    ensures Release(s, a, released).calls == s.calls
  {
  }

  lemma StepMovesOneCall(s: State, st: Step)
    requires Enabled(s, st)
    ensures OneCallMoves(s, Apply(s, st), st.a)
  {
    hide Effect, Release, Taken, Contended;
    if HasItsEffect(st) {
      EffectsMoveOneCall(s, st);
    } else if st.Duplicate? || st.Raise? {
      ReleasesMoveOneCall(s, st);
    }
  }

  lemma IdsOnlyGrow(s: State, st: Step)
    requires Enabled(s, st)
    ensures s.nextId <= Apply(s, st).nextId
  {
  }

  // What the steps without an insert or a commit leave alone.
  lemma OtherStepsKeepTables(s: State, st: Step)
    requires Enabled(s, st) && !st.Commit?
    ensures var t := Apply(s, st); t.rows == s.rows && t.logs == s.logs && t.events == s.events
    ensures var t := Apply(s, st);
            !st.Insert? && Pending(t.calls[st.a].phase) ==>
              st.a in s.calls && Pending(s.calls[st.a].phase) && t.calls[st.a].phase.job == s.calls[st.a].phase.job
    ensures !HasItsEffect(st) ==> Apply(s, st).effects == s.effects
    ensures st.a in s.calls && MayHaveEffect(s.calls[st.a].phase) ==> MayHaveEffect(Apply(s, st).calls[st.a].phase)
  {
    hide Taken, Contended, Validate;
  }

  lemma CommitKeepsRows(s: State, a: nat)
    requires RowsInv(s) && InsertsInv(s) && Enabled(s, Commit(a)) && WritesOk(s.calls[a])
    ensures RowsInv(Apply(s, Commit(a)))
  {
    var slot := s.calls[a].request.slot;
    assert forall j | j in s.rows :: s.rows[j].slot != slot by {
      assert !Taken(s.rows, slot);
    }
  }

  lemma StepKeepsRows(s: State, st: Step)
    requires RowsInv(s) && InsertsInv(s) && WritesInv(s) && Enabled(s, st)
    ensures RowsInv(Apply(s, st))
  {
    if st.Commit? {
      CommitKeepsRows(s, st.a);
    } else {
      hide Apply, Enabled;
      IdsOnlyGrow(s, st);
      OtherStepsKeepTables(s, st);
    }
  }

  lemma CommitKeepsInserts(s: State, a: nat)
    requires InsertsInv(s) && Enabled(s, Commit(a))
    ensures InsertsInv(Apply(s, Commit(a)))
  {
    var t := Apply(s, Commit(a));
    forall b | b in t.calls && Pending(t.calls[b].phase) ensures !Taken(t.rows, t.calls[b].request.slot) {
      assert !Taken(s.rows, s.calls[b].request.slot);
    }
  }

  lemma StepKeepsInserts(s: State, st: Step)
    requires InsertsInv(s) && RowsInv(s) && Enabled(s, st)
    ensures InsertsInv(Apply(s, st))
  {
    hide InsertsInv, RowsInv;
    if st.Commit? {
      CommitKeepsInserts(s, st.a);
    } else if st.Insert? {
      InsertKeepsInserts(s, st.a);
    } else {
      OtherKeepsInserts(s, st);
    }
  }

  lemma OtherKeepsInserts(s: State, st: Step)
    requires InsertsInv(s) && Enabled(s, st) && !st.Commit? && !st.Insert?
    ensures InsertsInv(Apply(s, st))
  {
    hide Apply, Enabled, Pending;
    IdsOnlyGrow(s, st);
    StepMovesOneCall(s, st);
    OtherStepsKeepTables(s, st);
  }

  lemma InsertKeepsInserts(s: State, a: nat)
    requires InsertsInv(s) && RowsInv(s) && Enabled(s, Insert(a))
    ensures InsertsInv(Apply(s, Insert(a)))
  {
    forall b | b in s.calls && b != a && Pending(s.calls[b].phase)
      ensures s.calls[b].request.slot != s.calls[a].request.slot
    {
      assert !Contended(s, a, s.calls[a].request.slot);
    }
  }

  lemma WritingKeepsWrites(s: State, st: Step)
    requires Enabled(s, st) && (st.WriteLog? || st.WriteEvent?) && WritesOk(s.calls[st.a])
    ensures WritesOk(Apply(s, st).calls[st.a])
  {
    var none: multiset<nat> := multiset{};
    var one := multiset{s.calls[st.a].phase.job};
    assert none + one == one && one + none == one && none + none == none;
  }

  lemma PhaseChangesWriteNothing(s: State, st: Step)
    requires Enabled(s, st) && !st.Begin? && !st.WriteLog? && !st.WriteEvent?
    ensures st.a in Apply(s, st).calls
    ensures var x, y := s.calls[st.a], Apply(s, st).calls[st.a]; y.logs == x.logs && y.events == x.events
  {
    hide Taken, Contended, Validate;
  }

  lemma PhaseChangesKeepWrites(s: State, st: Step)
    requires Enabled(s, st) && !st.Begin? && !st.WriteLog? && !st.WriteEvent? && WritesOk(s.calls[st.a])
    ensures st.a in Apply(s, st).calls && WritesOk(Apply(s, st).calls[st.a])
  {
    hide Taken, Contended, Validate;
    PhaseChangesWriteNothing(s, st);
  }

  lemma MoverKeepsWrites(s: State, st: Step)
    requires Enabled(s, st) && (st.a in s.calls ==> WritesOk(s.calls[st.a]))
    ensures st.a in Apply(s, st).calls && WritesOk(Apply(s, st).calls[st.a])
  {
    if st.WriteLog? || st.WriteEvent? {
      WritingKeepsWrites(s, st);
    } else if !st.Begin? {
      PhaseChangesKeepWrites(s, st);
    }
  }

  lemma StepKeepsWrites(s: State, st: Step)
    requires WritesInv(s) && Enabled(s, st)
    ensures WritesInv(Apply(s, st))
  {
    hide Apply, Enabled, WritesOk;
    StepMovesOneCall(s, st);
    MoverKeepsWrites(s, st);
  }

  lemma OthersLeaveReservations(s: State, st: Step, a: nat)
    requires Enabled(s, st) && st.a != a
    ensures var t := Apply(s, st); (a in t.held <==> a in s.held) && (a in t.lostReleases <==> a in s.lostReleases)
  {
    hide Taken, Contended, Validate;
  }

  lemma OwnReservationIsKept(s: State, st: Step)
    requires HeldInv(s) && Enabled(s, st) && st.a in Apply(s, st).held
    ensures var t := Apply(s, st); st.a in t.calls && MayHold(t.calls[st.a].phase, st.a in t.lostReleases)
  {
    hide Taken, Contended;
    assert st.a in s.held ==> st.a in s.calls && MayHold(s.calls[st.a].phase, st.a in s.lostReleases);
  }

  lemma StepKeepsHeld(s: State, st: Step)
    requires HeldInv(s) && Enabled(s, st)
    ensures HeldInv(Apply(s, st))
  {
    hide Enabled, Apply, MayHold;
    var t := Apply(s, st);
    StepMovesOneCall(s, st);
    forall a | a in t.held ensures a in t.calls && MayHold(t.calls[a].phase, a in t.lostReleases) {
      if a == st.a {
        OwnReservationIsKept(s, st);
      } else {
        OthersLeaveReservations(s, st, a);
      }
    }
  }

  lemma TakenStays(rows: map<nat, Request>, j: nat, r: Request, slot: Slot)
    requires j !in rows && Taken(rows, slot)
    ensures Taken(rows[j := r], slot)
  {
    var k :| k in rows && rows[k].slot == slot;
    assert rows[j := r][k].slot == slot;
  }

  lemma StepKeepsOwnCall(s: State, st: Step)
    requires InsertsInv(s) && Enabled(s, st) && st.a in Apply(s, st).calls && (st.a in s.calls ==> CallInv(s, st.a))
    ensures CallInv(Apply(s, st), st.a)
  {
  }

  lemma StepKeepsOthersCall(s: State, st: Step, b: nat)
    requires InsertsInv(s) && Enabled(s, st) && b != st.a && b in s.calls && CallInv(s, b)
    ensures b in Apply(s, st).calls && CallInv(Apply(s, st), b)
  {
    if st.Commit? && Taken(s.rows, s.calls[b].request.slot) {
      TakenStays(s.rows, s.calls[st.a].phase.job, s.calls[st.a].request, s.calls[b].request.slot);
    }
  }

  lemma StepKeepsCall(s: State, st: Step, b: nat)
    requires InsertsInv(s) && Enabled(s, st) && b in Apply(s, st).calls && (b in s.calls ==> CallInv(s, b))
    ensures CallInv(Apply(s, st), b)
  {
    hide InsertsInv, CallInv;
    StepMovesOneCall(s, st);
    if st.a == b {
      StepKeepsOwnCall(s, st);
    } else {
      StepKeepsOthersCall(s, st, b);
    }
  }

  lemma StepKeepsCalls(s: State, st: Step)
    requires InsertsInv(s) && CallsInv(s) && Enabled(s, st)
    ensures CallsInv(Apply(s, st))
  {
    forall b | b in Apply(s, st).calls ensures CallInv(Apply(s, st), b) {
      assert b in s.calls ==> CallInv(s, b);
      StepKeepsCall(s, st, b);
    }
  }

  lemma StepKeepsEntries(s: State, st: Step)
    requires EffectsInv(s) && Enabled(s, st) && !HasItsEffect(st)
    ensures EffectsInv(Apply(s, st))
  {
    hide Sequential, Apply, Enabled, MayHaveEffect;
    StepMovesOneCall(s, st);
    OtherStepsKeepTables(s, st);
  }

  // The answer of a call that takes effect is that of the sequential specification.
  lemma EffectIsSequential(s: State, a: nat, answer: Answer)
    requires a in s.calls && Agrees(Replay(s.effects), s.rows)
    requires match answer
             case Created(_) => !Taken(s.rows, s.calls[a].request.slot)
             case _ => exists j | j in s.rows :: s.rows[j].slot == s.calls[a].request.slot
                         && answer == Validate(s.rows[j], j, s.calls[a].request)
    ensures Answers(Replay(s.effects), Entry(a, s.calls[a].request, answer))
  {
  }

  lemma EffectKeepsEntries(s: State, st: Step, answer: Answer)
    requires EffectsInv(s) && Enabled(s, st) && HasItsEffect(st)
    requires Answers(Replay(s.effects), Entry(st.a, s.calls[st.a].request, answer))
    requires Apply(s, st).effects == s.effects + [Entry(st.a, s.calls[st.a].request, answer)]
    ensures EffectsInv(Apply(s, st))
  {
    hide Sequential, Answers, Replay;
    AppendEffect(s.effects, Entry(st.a, s.calls[st.a].request, answer));
  }

  lemma CommitKeepsAgreement(s: State, a: nat)
    requires RowsInv(s) && InsertsInv(s) && EffectsInv(s) && Agrees(Replay(s.effects), s.rows) && Enabled(s, Commit(a))
    ensures EffectsInv(Apply(s, Commit(a))) && Agrees(Replay(Apply(s, Commit(a)).effects), Apply(s, Commit(a)).rows)
  {
    hide Sequential, Replay, Answers, Agrees;
    var r, j := s.calls[a].request, s.calls[a].phase.job;
    EffectIsSequential(s, a, Created(j));
    EffectKeepsEntries(s, Commit(a), Created(j));
    AppendEffect(s.effects, Entry(a, r, Created(j)));
    NewRowAgrees(Replay(s.effects), s.rows, j, r);
  }

  lemma NewRowAgrees(taken: map<Slot, Stored>, rows: map<nat, Request>, j: nat, r: Request)
    requires Agrees(taken, rows) && j !in rows && !Taken(rows, r.slot)
    ensures Agrees(taken[r.slot := Stored(j, r.hash)], rows[j := r])
  {
  }

  lemma FoundKeepsAgreement(s: State, st: Step, j: nat)
    requires EffectsInv(s) && Agrees(Replay(s.effects), s.rows) && Enabled(s, st)
    requires st == ReadHit(st.a, j) || st == Reload(st.a, j)
    ensures EffectsInv(Apply(s, st)) && Agrees(Replay(Apply(s, st).effects), Apply(s, st).rows)
  {
    hide Sequential, Replay;
    var r := s.calls[st.a].request;
    EffectIsSequential(s, st.a, Validate(s.rows[j], j, r));
    EffectKeepsEntries(s, st, Validate(s.rows[j], j, r));
    AppendEffect(s.effects, Entry(st.a, r, Validate(s.rows[j], j, r)));
  }

  lemma StepKeepsInv(s: State, st: Step)
    requires Inv(s) && Enabled(s, st)
    ensures Inv(Apply(s, st))
  {
    hide RowsInv, InsertsInv, WritesInv, EffectsInv, HeldInv, CallsInv, Agrees, Replay;
    StepKeepsRows(s, st);
    StepKeepsWrites(s, st);
    StepKeepsInserts(s, st);
    StepKeepsHeld(s, st);
    StepKeepsCalls(s, st);
    match st
    case Commit(a) => CommitKeepsAgreement(s, a);
    case ReadHit(a, j) => FoundKeepsAgreement(s, st, j);
    case Reload(a, j) => FoundKeepsAgreement(s, st, j);
    case _ => StepKeepsEntries(s, st);
  }

  lemma {:induction false} ReachableKeepsInv(run: seq<State>, i: nat)
    requires IsRun(run) && i < |run|
    ensures Inv(run[i])
  {
    if i > 0 {
      ReachableKeepsInv(run, i - 1);
      assert Next(run[i - 1], run[i - 1 + 1]);
      var st :| Enabled(run[i - 1], st) && run[i] == Apply(run[i - 1], st);
      StepKeepsInv(run[i - 1], st);
    }
  }

  /* ----- Linearizability ----- */

  // Call `a` took effect as the `i`-th one, and answers so.
  ghost predicate TookEffectAt(s: State, a: nat, i: nat) {
    && a in s.calls && i < |s.effects| && s.effects[i].call == a && s.effects[i].request == s.calls[a].request
    && (s.calls[a].phase.Answered? ==> s.effects[i].answer == s.calls[a].phase.answer)
  }

  /**
   The calls that took effect, in this order, are a run of the sequential
   specification that leaves exactly the committed rows; every answered call is one
   of them, once, with its answer.
   */
  lemma Linearizable(run: seq<State>, i: nat)
    requires IsRun(run) && i < |run|
    ensures Sequential(run[i].effects) && Agrees(Replay(run[i].effects), run[i].rows)
    ensures forall a | a in run[i].calls && run[i].calls[a].phase.Answered? ::
              exists k: nat :: TookEffectAt(run[i], a, k)
    ensures forall a, k: nat, l: nat | TookEffectAt(run[i], a, k) && TookEffectAt(run[i], a, l) :: k == l
  {
    ReachableKeepsInv(run, i);
    forall a | a in run[i].calls && run[i].calls[a].phase.Answered?
      ensures exists k: nat :: TookEffectAt(run[i], a, k)
    {
      assert CallInv(run[i], a);
      var k: nat :| k < |run[i].effects|
               && run[i].effects[k] == Entry(a, run[i].calls[a].request, run[i].calls[a].phase.answer);
      assert TookEffectAt(run[i], a, k);
    }
  }

  lemma {:induction false} EffectsOnlyGrow(run: seq<State>, i: nat, k: nat)
    requires IsRun(run) && i <= k < |run|
    ensures run[i].effects <= run[k].effects
  {
    if i < k {
      EffectsOnlyGrow(run, i, k - 1);
      assert Next(run[k - 1], run[k - 1 + 1]);
    }
  }

  /** The order agrees with real time: a call that was answered before another began took effect before it. */
  lemma EffectsFollowRealTime(run: seq<State>, i: nat, k: nat, a: nat, b: nat, m: nat, n: nat)
    requires IsRun(run) && i <= k < |run|
    requires a in run[i].calls && run[i].calls[a].phase.Answered? && b !in run[i].calls
    requires TookEffectAt(run[k], a, m) && TookEffectAt(run[k], b, n)
    ensures m < n
  {
    hide IsRun, RowsInv, InsertsInv, WritesInv, HeldInv, CallsInv, Agrees, Replay, Sequential;
    Linearizable(run, i);
    ReachableKeepsInv(run, i);
    ReachableKeepsInv(run, k);
    EffectsOnlyGrow(run, i, k);
    var l: nat :| TookEffectAt(run[i], a, l);
    assert run[k].effects[l] == run[i].effects[l];
  }

  /* ----- What the callers see ----- */

  lemma {:induction false} SlotsAreTakenForGood(effects: seq<Entry>, i: nat, slot: Slot)
    requires Sequential(effects) && i <= |effects| && slot in Replay(effects[..i])
    ensures slot in Replay(effects) && Replay(effects)[slot] == Replay(effects[..i])[slot]
  {
    if i < |effects| {
      var shorter := effects[..|effects| - 1];
      assert shorter[..i] == effects[..i];
      assert Sequential(shorter) by {
        forall k | 0 <= k < |shorter| ensures Answers(Replay(shorter[..k]), shorter[k]) {
          assert shorter[..k] == effects[..k];
        }
      }
      SlotsAreTakenForGood(shorter, i, slot);
      assert Answers(Replay(effects[..|effects| - 1]), effects[|effects| - 1]);
    } else {
      assert effects[..i] == effects;
    }
  }

  lemma EffectsAgreeWithTheEnd(effects: seq<Entry>, i: nat)
    requires Sequential(effects) && i < |effects|
    ensures var e, taken := effects[i], Replay(effects);
            && e.request.slot in taken
            && match e.answer
               case Created(j) => taken[e.request.slot] == Stored(j, e.request.hash)
               case Existing(j) => taken[e.request.slot] == Stored(j, e.request.hash)
               case Conflict => taken[e.request.slot].hash != e.request.hash
  {
    var slot := effects[i].request.slot;
    assert Answers(Replay(effects[..i]), effects[i]);
    if effects[i].answer.Created? {
      assert effects[..i + 1][..i] == effects[..i];
      SlotsAreTakenForGood(effects, i + 1, slot);
    } else {
      SlotsAreTakenForGood(effects, i, slot);
    }
  }

  // The committed job of the slot.
  ghost predicate IsJobOf(s: State, j: nat, slot: Slot) {
    j in s.rows && s.rows[j].slot == slot
  }

  /**
   Every answered call gives the one job that its owner and key have, and reports a
   conflict exactly when that job was created from a different request.
   */
  lemma AnswersNameTheJob(run: seq<State>, i: nat, a: nat, j: nat)
    requires IsRun(run) && i < |run| && a in run[i].calls && run[i].calls[a].phase.Answered?
    requires IsJobOf(run[i], j, run[i].calls[a].request.slot)
    ensures var answer := run[i].calls[a].phase.answer;
            && (answer == Conflict <==> run[i].rows[j].hash != run[i].calls[a].request.hash)
            && (answer != Conflict ==> answer.job == j)
  {
    Linearizable(run, i);
    var k: nat :| TookEffectAt(run[i], a, k);
    EffectsAgreeWithTheEnd(run[i].effects, k);
  }

  /** An answered call has a job to speak of, and its owner and key have no second one. */
  lemma OneJobPerSlot(run: seq<State>, i: nat, a: nat)
    requires IsRun(run) && i < |run| && a in run[i].calls && run[i].calls[a].phase.Answered?
    ensures exists j :: IsJobOf(run[i], j, run[i].calls[a].request.slot)
    ensures forall j, k | IsJobOf(run[i], j, run[i].calls[a].request.slot)
                          && IsJobOf(run[i], k, run[i].calls[a].request.slot) :: j == k
  {
    ReachableKeepsInv(run, i);
    Linearizable(run, i);
    var k: nat :| TookEffectAt(run[i], a, k);
    EffectsAgreeWithTheEnd(run[i].effects, k);
    var slot := run[i].calls[a].request.slot;
    assert IsJobOf(run[i], Replay(run[i].effects)[slot].job, slot);
  }

  /** At most one of the calls for an owner and key reports that it created the job. */
  lemma OneCallCreates(run: seq<State>, i: nat, a: nat, b: nat)
    requires IsRun(run) && i < |run| && a in run[i].calls && b in run[i].calls
    requires run[i].calls[a].request.slot == run[i].calls[b].request.slot
    requires run[i].calls[a].phase.Answered? && run[i].calls[a].phase.answer.Created?
    requires run[i].calls[b].phase.Answered? && run[i].calls[b].phase.answer.Created?
    ensures a == b
  {
    hide IsRun, Replay, Sequential, Agrees;
    Linearizable(run, i);
    var k: nat :| TookEffectAt(run[i], a, k);
    var l: nat :| TookEffectAt(run[i], b, l);
    if k < l {
      LaterCallsFindTheSlot(run[i].effects, k, l);
    } else if l < k {
      LaterCallsFindTheSlot(run[i].effects, l, k);
    }
  }

  lemma LaterCallsFindTheSlot(effects: seq<Entry>, k: nat, l: nat)
    requires Sequential(effects) && k < l < |effects| && effects[k].request.slot == effects[l].request.slot
    ensures !effects[l].answer.Created?
  {
    var earlier := effects[..l];
    assert Sequential(earlier) by {
      forall i | 0 <= i < |earlier| ensures Answers(Replay(earlier[..i]), earlier[i]) {
        assert earlier[..i] == effects[..i];
      }
    }
    EffectsAgreeWithTheEnd(earlier, k);
    assert Answers(Replay(effects[..l]), effects[l]);
  }

  /** Every committed job has exactly one creation log and one initial event, and nothing else has any. */
  lemma OneLogAndOneEventPerJob(run: seq<State>, i: nat, j: nat)
    requires IsRun(run) && i < |run|
    ensures run[i].logs[j] == run[i].events[j] == (if j in run[i].rows then 1 else 0)
  {
    ReachableKeepsInv(run, i);
  }

  /** After a conflict on the insert, the reload always finds the job. */
  lemma ReloadsFindTheJob(run: seq<State>, i: nat, a: nat)
    requires IsRun(run) && i < |run| && a in run[i].calls
    ensures run[i].calls[a].phase != ExpectedAnExistingJob
    ensures !Enabled(run[i], ReloadMiss(a))
  {
    hide IsRun, RowsInv, InsertsInv, WritesInv, EffectsInv, HeldInv, Agrees, Replay;
    ReachableKeepsInv(run, i);
    assert CallInv(run[i], a);
  }

  /**
   A call that is over without a new job - because of somebody else's job, a conflict, or
   an exception - has given its reservation back, or failed to; only a crash leaves it.
   */
  lemma OnlyCreatorsKeepReservations(run: seq<State>, i: nat, a: nat)
    requires IsRun(run) && i < |run| && a in run[i].calls && Over(run[i].calls[a].phase)
    ensures var p := run[i].calls[a].phase;
            && (a in run[i].held ==> (p.Answered? && p.answer.Created?) || p.Crashed? || a in run[i].lostReleases)
            && !(p.RateLimited? && a in run[i].held)
  {
    ReachableKeepsInv(run, i);
  }

  /** A call has no reservation before it asks for one. */
  lemma NothingIsHeldYet(run: seq<State>, i: nat, a: nat)
    requires IsRun(run) && i < |run| && a in run[i].calls
    requires run[i].calls[a].phase.Reading? || run[i].calls[a].phase.Reserving?
    ensures a !in run[i].held
  {
    ReachableKeepsInv(run, i);
  }

  // The call has a reservation, or went on without, and is creating its job or has done so.
  predicate Creates(p: Phase) {
    p.Inserting? || Pending(p) || p.Committed? || (p.Answered? && p.answer.Created?)
  }

  predicate HasReserved(s: State, a: nat) {
    a in s.calls && !s.calls[a].phase.Reading? && !s.calls[a].phase.Reserving?
  }

  lemma CreatorsComeFromCreators(s: State, st: Step, a: nat)
    requires Enabled(s, st) && HasReserved(s, a) && Creates(Apply(s, st).calls[a].phase)
    ensures HasReserved(Apply(s, st), a) && Creates(s.calls[a].phase)
    ensures a in s.held <==> a in Apply(s, st).held
  {
    hide Enabled, Apply;
    if st.a == a {
      CreatorComesFromItself(s, st);
    } else {
      StepMovesOneCall(s, st);
      OthersLeaveReservations(s, st, a);
    }
  }

  lemma CreatorComesFromItself(s: State, st: Step)
    requires Enabled(s, st) && HasReserved(s, st.a) && Creates(Apply(s, st).calls[st.a].phase)
    ensures HasReserved(Apply(s, st), st.a) && Creates(s.calls[st.a].phase)
    ensures st.a in s.held <==> st.a in Apply(s, st).held
  {
    hide Taken, Contended;
  }

  lemma StepKeepsReserved(s: State, st: Step, a: nat)
    requires Enabled(s, st) && HasReserved(s, a)
    ensures HasReserved(Apply(s, st), a)
  {
    hide Taken, Contended, Validate;
  }

  lemma {:induction false} StaysReserved(run: seq<State>, i: nat, k: nat, a: nat)
    requires IsRun(run) && i <= k < |run| && HasReserved(run[i], a)
    ensures HasReserved(run[k], a)
  {
    hide IsRun, Enabled, Apply, HasReserved;
    if i < k {
      StaysReserved(run, i, k - 1, a);
      var st := StepTaken(run, k - 1);
      StepKeepsReserved(run[k - 1], st, a);
    }
  }

  /** A call that creates a job has its reservation to the end, if it was granted one. */
  lemma {:induction false} CreatorsKeepTheirReservations(run: seq<State>, i: nat, k: nat, a: nat)
    requires IsRun(run) && i <= k < |run| && HasReserved(run[i], a)
    requires a in run[k].calls && Creates(run[k].calls[a].phase)
    ensures a in run[k].held <==> a in run[i].held
  {
    hide IsRun, Next, Enabled, Apply, HasReserved, Creates;
    if i < k {
      StaysReserved(run, i, k - 1, a);
      var st := StepTaken(run, k - 1);
      CreatorsComeFromCreators(run[k - 1], st, a);
      ReservedIsACall(run[k - 1], a);
      CreatorsKeepTheirReservations(run, i, k - 1, a);
    }
  }

  lemma ReservedIsACall(s: State, a: nat)
    requires HasReserved(s, a)
    ensures a in s.calls
  {
  }

  lemma StepTaken(run: seq<State>, i: nat) returns (st: Step)
    requires IsRun(run) && i + 1 < |run|
    ensures Enabled(run[i], st) && run[i + 1] == Apply(run[i], st)
  {
    assert Next(run[i], run[i + 1]);
    st :| Enabled(run[i], st) && run[i + 1] == Apply(run[i], st);
  }
}
