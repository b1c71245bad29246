/** The API's create_job as a program over the shared tables, statement by statement. */
module CreateJob {
  import opened Wrappers
  import opened Creation

  // From `s` to `t`, call `a` has not moved and has kept what it has reserved, and committed rows have stayed.
  ghost predicate LeftAlone(s: State, t: State, a: nat) {
    && (a in s.calls ==> a in t.calls && t.calls[a] == s.calls[a])
    && (a in s.held <==> a in t.held)
    && (forall j | j in s.rows :: j in t.rows && t.rows[j] == s.rows[j])
  }

  /** What a call relies on between its statements is what every step of the others grants. */
  lemma OthersLeaveTheCall(s: State, st: Step, a: nat)
    requires Inv(s) && Enabled(s, st) && st.a != a
    ensures LeftAlone(s, Apply(s, st), a)
  {
    hide Enabled, Apply;
    StepMovesOneCall(s, st);
    OthersLeaveReservations(s, st, a);
    if st.Commit? {
      CommitAddsRows(s, st.a);
    } else {
      OtherStepsKeepTables(s, st);
    }
  }

  lemma CommitAddsRows(s: State, a: nat)
    requires Inv(s) && Enabled(s, Commit(a))
    ensures forall j | j in s.rows :: j in Apply(s, Commit(a)).rows && Apply(s, Commit(a)).rows[j] == s.rows[j]
  {
  }

  lemma OnlyOthersContend(s: State, t: State, a: nat, slot: Slot)
    requires s.calls.Keys + {a} == t.calls.Keys + {a}
    requires forall b | b in s.calls && b != a :: t.calls[b] == s.calls[b]
    ensures Contended(s, a, slot) == Contended(t, a, slot)
  {
    assert forall b | b != a :: b in s.calls.Keys + {a} <==> b in t.calls.Keys + {a};
  }

  class JobTable {
    const calm: bool        // no other call runs, and nothing raises
    var state: State
    ghost var run: seq<State>

    ghost predicate Valid()
      reads this
    {
      IsRun(run) && run[|run| - 1] == state
    }

    constructor (calm: bool)
      ensures Valid() && state == INITIAL && this.calm == calm
    {
      this.calm := calm;
      state, run := INITIAL, [INITIAL];
    }

    method Do(st: Step)
      requires Valid() && Enabled(state, st)
      modifies this
      ensures Valid() && run == old(run) + [state] && state == Apply(old(state), st)
    {
      ghost var before := run;
      state := Apply(state, st);
      run := run + [state];
      forall i | 0 <= i < |run| - 1 ensures Next(run[i], run[i + 1]) {
        if i < |before| - 1 {
          assert Next(before[i], before[i + 1]);
        }
      }
    }

    // Other calls take any number of steps, in any order.
    method Yield(a: nat)
      requires Valid() && a in state.calls
      modifies this
      ensures Valid() && old(run) <= run && LeftAlone(old(state), state, a)
      ensures calm ==> state == old(state)
    {
      hide IsRun, Next, Enabled, Apply, Inv;
      if calm {
        return;
      }
      var steps: int := *;
      for i := 0 to Max(steps, 0)
        invariant Valid() && old(run) <= run && LeftAlone(old(state), state, a)
      {
        var st: Step := *;
        if Enabled(state, st) && st.a != a {
          InvHolds();
          OthersLeaveTheCall(state, st, a);
          Do(st);
        }
      }
    }

    lemma InvHolds()
      requires Valid()
      ensures Inv(state)
    {
      ReachableKeepsInv(run, |run| - 1);
    }

    // The call is in phase `p`.
    ghost predicate In(a: nat, request: Request, p: Phase)
      reads this
    {
      a in state.calls && state.calls[a].request == request && state.calls[a].phase == p
    }

    // get_by_idempotency_key.
    method FindJob(slot: Slot) returns (found: Option<nat>)
      ensures found.Some? ==> IsJobOf(state, found.value, slot)
      ensures found == None ==> !Taken(state.rows, slot)
    {
      if j :| j in state.rows && state.rows[j].slot == slot {
        found := Some(j);
      } else {
        found := None;
      }
    }

    method Start(a: nat, request: Request)
      requires Valid() && a !in state.calls
      modifies this
      ensures Valid() && old(run) <= run && In(a, request, Reading)
      ensures calm ==>
                && state.rows == old(state.rows)
                && state.logs == old(state.logs) && state.events == old(state.events)
      ensures calm ==> Contended(state, a, request.slot) == Contended(old(state), a, request.slot)
    {
      Do(Begin(a, request));
      OnlyOthersContend(old(state), state, a, request.slot);
      Yield(a);
    }

    // What answering `answer` to a request for an existing job means.
    ghost predicate AnsweredFrom(rows: map<nat, Request>, request: Request, answer: Answer) {
      exists j | j in rows :: rows[j].slot == request.slot && answer == Validate(rows[j], j, request)
    }

    // The first read: an existing job answers the call.
    method ReadExisting(a: nat, request: Request) returns (answer: Option<Answer>)
      requires Valid() && In(a, request, Reading)
      modifies this
      ensures Valid() && old(run) <= run
      ensures In(a, request, if answer.Some? then Answered(answer.value) else Reserving)
      ensures if answer.Some? then state.rows == old(state.rows) && AnsweredFrom(state.rows, request, answer.value)
              else !Taken(old(state.rows), request.slot)
      ensures calm && answer == None ==>
                && state.rows == old(state.rows) && state.logs == old(state.logs) && state.events == old(state.events)
                && Contended(state, a, request.slot) == Contended(old(state), a, request.slot)
    {
      var found := FindJob(request.slot);
      if found.Some? {
        answer := Some(Validate(state.rows[found.value], found.value, request));
        Do(ReadHit(a, found.value));
      } else {
        answer := None;
        Do(ReadMiss(a));
        OnlyOthersContend(old(state), state, a, request.slot);
        Yield(a);
      }
    }

    // The rate limiter rejects the call, grants a reservation, or is down and lets it through.
    method ReserveSlot(a: nat, request: Request) returns (limited: bool, granted: bool)
      requires Valid() && In(a, request, Reserving)
      modifies this
      ensures Valid() && old(run) <= run
      ensures In(a, request, if limited then RateLimited else Inserting)
      ensures !limited ==> (a in state.held <==> granted)
      ensures calm ==>
                && state.rows == old(state.rows)
                && state.logs == old(state.logs) && state.events == old(state.events)
      ensures calm ==> Contended(state, a, request.slot) == Contended(old(state), a, request.slot)
    {
      hide Next, Inv;
      limited, granted := *, *;
      NothingIsHeldYet(run, |run| - 1, a);
      Do(if limited then Limit(a) else Reserve(a, granted));
      OnlyOthersContend(old(state), state, a, request.slot);
      Yield(a);
    }

    // Inserts the rows, unless the unique constraint stops it or the database refuses.
    method InsertRows(a: nat, request: Request) returns (phase: Phase)
      requires Valid() && In(a, request, Inserting)
      modifies this
      ensures Valid() && old(run) <= run && In(a, request, phase)
      ensures phase.Inserted? || phase.Reloading? || phase.Failed?
      ensures phase.Reloading? ==> Taken(state.rows, request.slot)
      ensures calm ==>
                && state.rows == old(state.rows)
                && state.logs == old(state.logs) && state.events == old(state.events)
      ensures calm && !Taken(old(state.rows), request.slot) && !Contended(old(state), a, request.slot) ==>
                phase.Inserted?
    {
      hide IsRun, Next;
      var refused := Refuses(calm);
      var released := *;
      if Taken(state.rows, request.slot) {
        Do(Duplicate(a, released));
      } else if refused || Contended(state, a, request.slot) {
        Do(Raise(a, released));
      } else {
        Do(Insert(a));
      }
      phase := state.calls[a].phase;
      Yield(a);
      ReloadingFindsTheRow(a);
    }

    // Writes the creation log, then the event, in the transaction of the row.
    method WriteLogAndEvent(a: nat, request: Request, j: nat) returns (written: bool)
      requires Valid() && In(a, request, Inserted(j))
      modifies this
      ensures Valid() && old(run) <= run && In(a, request, if written then Prepared(j) else Failed)
      ensures calm ==>
                && written && state.rows == old(state.rows)
                && state.logs == old(state.logs) && state.events == old(state.events)
    {
      hide IsRun, Next;
      var refused := Refuses(calm);
      var released := *;
      if refused {
        Do(Raise(a, released));
        return false;
      }
      Do(WriteLog(a));
      Yield(a);
      refused := Refuses(calm);
      if refused {
        Do(Raise(a, released));
        return false;
      }
      Do(WriteEvent(a));
      Yield(a);
      written := true;
    }

    // The job of the request is there, with one creation log and one event.
    ghost predicate Complete(j: nat, request: Request)
      reads this
    {
      j in state.rows && state.rows[j] == request && state.logs[j] == 1 && state.events[j] == 1
    }

    // Commits, and returns the new job; a lost confirmation raises as a failed commit does.
    method CommitRows(a: nat, request: Request, j: nat) returns (committed: bool)
      requires Valid() && In(a, request, Prepared(j))
      modifies this
      ensures Valid() && old(run) <= run && In(a, request, if committed then Answered(Created(j)) else Failed)
      ensures committed ==> Complete(j, request)
      ensures calm ==>
                && committed && j !in old(state.rows) && state.rows == old(state.rows)[j := request]
                && state.logs == old(state.logs) + multiset{j} && state.events == old(state.events) + multiset{j}
    {
      hide IsRun, Next;
      PreparedWritesBoth(a, j);
      var refused := Refuses(calm);
      var released := *;
      if refused {
        Do(Raise(a, released));
        return false;
      }
      Do(Step.Commit(a));
      Yield(a);
      var lost := Refuses(calm);
      Do(if lost then Raise(a, released) else Return(a));
      committed := !lost;
      OneLogAndOneEventPerJob(run, |run| - 1, j);
    }

    lemma PreparedWritesBoth(a: nat, j: nat)
      requires Valid() && a in state.calls && state.calls[a].phase == Prepared(j)
      ensures state.calls[a].logs == state.calls[a].events == multiset{j} && j !in state.rows
    {
      InvHolds();
      assert WritesOk(state.calls[a]);
    }

    // What follows the insert.
    method CompleteRows(a: nat, request: Request, j: nat) returns (committed: bool)
      requires Valid() && In(a, request, Inserted(j))
      modifies this
      ensures Valid() && old(run) <= run && In(a, request, if committed then Answered(Created(j)) else Failed)
      ensures committed ==> Complete(j, request)
      ensures calm ==>
                && committed && j !in old(state.rows) && state.rows == old(state.rows)[j := request]
                && state.logs == old(state.logs) + multiset{j} && state.events == old(state.events) + multiset{j}
    {
      hide IsRun, Next, Enabled, Apply, Inv;
      committed := WriteLogAndEvent(a, request, j);
      if committed {
        committed := CommitRows(a, request, j);
      }
    }

    // A call that reloads has met a committed row of its slot.
    lemma ReloadingFindsTheRow(a: nat)
      requires Valid() && a in state.calls
      ensures state.calls[a].phase.Reloading? ==> Taken(state.rows, state.calls[a].request.slot)
    {
      InvHolds();
      assert CallInv(state, a);
    }

    // _load_existing_job: the job that stood in the way is there.
    method LoadExisting(a: nat, request: Request) returns (answer: Answer)
      requires Valid() && In(a, request, Reloading)
      modifies this
      ensures Valid() && old(run) <= run && In(a, request, Answered(answer))
      ensures AnsweredFrom(state.rows, request, answer)
    {
      var found := FindJob(request.slot);
      // The error for a job that is missing after a conflict is never raised.
      InvHolds();
      assert CallInv(state, a);
      answer := Validate(state.rows[found.value], found.value, request);
      Do(Reload(a, found.value));
    }

    // What follows a first read that finds no job.
    method ReserveAndInsert(a: nat, request: Request) returns (result: Phase, granted: bool)
      requires Valid() && In(a, request, Reserving)
      modifies this
      ensures Valid() && old(run) <= run && In(a, request, result) && Over(result)
      ensures result == RateLimited || result == Failed || result.Answered?
      ensures result.Answered? && result.answer.Created? ==>
                Complete(result.answer.job, request) && (a in state.held <==> granted)
      ensures result.Answered? && !result.answer.Created? ==> AnsweredFrom(state.rows, request, result.answer)
      ensures calm && !Taken(old(state.rows), request.slot) && !Contended(old(state), a, request.slot) ==>
                match result
                case Answered(Created(j)) =>
                  && j !in old(state.rows) && state.rows == old(state.rows)[j := request]
                  && state.logs == old(state.logs) + multiset{j} && state.events == old(state.events) + multiset{j}
                case _ =>
                  && result == RateLimited && state.rows == old(state.rows)
                  && state.logs == old(state.logs) && state.events == old(state.events)
    {
      hide IsRun, Next, Enabled, Apply, Inv, Contended;
      var limited;
      limited, granted := ReserveSlot(a, request);
      if limited {
        return RateLimited, granted;
      }
      ghost var reserved := |run| - 1;
      var phase := InsertRows(a, request);
      if phase.Inserted? {
        var committed := CompleteRows(a, request, phase.job);
        result := if committed then Answered(Created(phase.job)) else Failed;
      } else if phase.Reloading? {
        var answer := LoadExisting(a, request);
        result := Answered(answer);
      } else {
        result := Failed;
      }
      if result.Answered? && result.answer.Created? {
        CreatorsKeepTheirReservations(run, reserved, |run| - 1, a);
      }
    }

    /**
     Creates a job, or finds the one that was created for the same owner and key.
     Whatever other calls do, a job that was created is there with its log and its
     event, and any other answer is about the job that is there.  Who creates has the
     reservation that he was granted, and nobody else keeps one unless its release was
     lost.  The answer is recorded among the calls of the run, so that all that holds over
     runs holds of it; alone, the call creates exactly when the slot is free.
     */
    method CreateJob(a: nat, request: Request) returns (result: Phase, ghost granted: bool)
      requires Valid() && a !in state.calls
      modifies this
      ensures Valid() && old(run) <= run && In(a, request, result) && Over(result)
      ensures result != ExpectedAnExistingJob
      ensures if result.Answered? && result.answer.Created? then a in state.held <==> granted
              else a in state.held ==> a in state.lostReleases
      ensures result.Answered? && result.answer.Created? ==> Complete(result.answer.job, request)
      ensures result.Answered? && !result.answer.Created? ==> AnsweredFrom(state.rows, request, result.answer)
      ensures calm && Taken(old(state.rows), request.slot) ==>
                result.Answered? && state.rows == old(state.rows) && AnsweredFrom(state.rows, request, result.answer)
      ensures calm && !Taken(old(state.rows), request.slot) && !Contended(old(state), a, request.slot) ==>
                match result
                case Answered(Created(j)) =>
                  && j !in old(state.rows) && state.rows == old(state.rows)[j := request]
                  && state.logs == old(state.logs) + multiset{j} && state.events == old(state.events) + multiset{j}
                case _ =>
                  && result == RateLimited && state.rows == old(state.rows)
                  && state.logs == old(state.logs) && state.events == old(state.events)
    {
      hide IsRun, Next, Enabled, Apply, Inv, Contended;
      granted := false;
      Start(a, request);
      var existing := ReadExisting(a, request);
      if existing.Some? {
        result := Answered(existing.value);
      } else {
        result, granted := ReserveAndInsert(a, request);
      }
      OnlyCreatorsKeepReservations(run, |run| - 1, a);
    }
  }
}
