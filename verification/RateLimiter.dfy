/**
 The fixed-window rate limit on job creation: one Redis counter per user and window,
 changed by two scripts.  The clock of the API and that of Redis are one.
 */
module RateLimiter {
  import opened Wrappers

  const KEY_EXPIRY_MARGIN_SECONDS: nat := 5

  datatype Config = Config(limit: nat, windowSeconds: nat)

  predicate ConfigOk(c: Config) {
    c.limit >= 1 && c.windowSeconds >= 1
  }

  datatype WindowKey = WindowKey(user: nat, start: int)

  datatype Counter = Counter(value: nat, expiresAt: real)

  // What was answered to whom.  An accepted reservation is known by its place in the history.
  // `Unanswered` is a request that was counted, but whose answer was lost, so that the caller went on without one.
  datatype Event =
    | Accepted(key: WindowKey, at: real)
    | Rejected(key: WindowKey)
    | Unanswered(key: WindowKey)
    | Released(reservation: nat)

  datatype State = State(now: real, counters: map<WindowKey, Counter>, history: seq<Event>)

  datatype Step = Tick(to: real) | Reserve(user: nat, answered: bool) | Release(reservation: nat)

  /* ----- Windows ----- */

  // int(now.timestamp()), for times after 1970.
  function Epoch(now: real): int {
    now.Floor
  }

  function WindowStart(c: Config, now: real): (start: int)
    requires ConfigOk(c)
    ensures start <= Epoch(now) < start + c.windowSeconds
    ensures start == Epoch(now) / c.windowSeconds * c.windowSeconds
  {
    Epoch(now) - Epoch(now) % c.windowSeconds
  }

  // The first multiple of the window length after the time.
  function ResetEpoch(c: Config, now: real): (reset: int)
    requires ConfigOk(c)
    ensures now.Floor < reset <= now.Floor + c.windowSeconds && reset % c.windowSeconds == 0
  {
    var q := Epoch(now) / c.windowSeconds;
    MultiplesLeaveNothing(q + 1, c.windowSeconds);
    assert (q + 1) * c.windowSeconds == q * c.windowSeconds + c.windowSeconds;
    WindowStart(c, now) + c.windowSeconds
  }

  // Neither more nor less than it takes to come to that multiple.
  function RetryAfterSeconds(c: Config, now: real): (seconds: int)
    requires ConfigOk(c)
    ensures 1 <= seconds <= c.windowSeconds && (now.Floor + seconds) % c.windowSeconds == 0
  {
    Max(ResetEpoch(c, now) - Epoch(now), 0)
  }

  lemma ProductIsMonotone(a: int, b: int, w: nat)
    requires a <= b
    ensures a * w <= b * w
  {
  }

  lemma QuotientIsUnique(x: int, q: int, w: nat)
    requires w >= 1 && q * w <= x < q * w + w
    ensures x / w == q
  {
    var d := x / w;
    assert x == d * w + x % w;
    if d < q {
      ProductIsMonotone(d + 1, q, w);
    } else if q < d {
      ProductIsMonotone(q + 1, d, w);
    }
  }

  lemma MultiplesLeaveNothing(q: int, w: nat)
    requires w >= 1
    ensures q * w % w == 0
  {
    QuotientIsUnique(q * w, q, w);
    assert q * w == (q * w) / w * w + q * w % w;
  }

  lemma StartIsAMultiple(c: Config, now: real)
    requires ConfigOk(c)
    ensures WindowStart(c, now) == Epoch(now) / c.windowSeconds * c.windowSeconds
  {
  }

  // The window that holds an epoch of this window, or of the next one.
  lemma SameOrNextWindow(c: Config, t: real, at: real)
    requires ConfigOk(c) && WindowStart(c, t) <= Epoch(at) < WindowStart(c, t) + 2 * c.windowSeconds
    ensures WindowStart(c, at) == WindowStart(c, t) || WindowStart(c, at) == ResetEpoch(c, t)
  {
    var w, q := c.windowSeconds, Epoch(t) / c.windowSeconds;
    StartIsAMultiple(c, t);
    StartIsAMultiple(c, at);
    if Epoch(at) < WindowStart(c, t) + w {
      QuotientIsUnique(Epoch(at), q, w);
    } else {
      assert (q + 1) * w == q * w + w;
      QuotientIsUnique(Epoch(at), q + 1, w);
    }
  }

  /** A caller that waits as long as it is told to finds itself in the next window. */
  lemma WaitingReachesTheNextWindow(c: Config, now: real)
    requires ConfigOk(c)
    ensures WindowStart(c, now + RetryAfterSeconds(c, now) as real) == ResetEpoch(c, now)
  {
    var later := now + RetryAfterSeconds(c, now) as real;
    assert Epoch(later) == ResetEpoch(c, now);
    SameOrNextWindow(c, now, later);
  }

  /* ----- The two scripts ----- */

  // The value of a key, when it has not expired.
  function Read(s: State, k: WindowKey): Option<nat> {
    if k in s.counters && s.now < s.counters[k].expiresAt then Some(s.counters[k].value) else None
  }

  // INCR, and EXPIRE when the key is new.
  function Increment(c: Config, s: State, k: WindowKey): Counter {
    var current := if Read(s, k).Some? then Read(s, k).value + 1 else 1;
    Counter(current, if current == 1 then s.now + (c.windowSeconds + KEY_EXPIRY_MARGIN_SECONDS) as real
                     else s.counters[k].expiresAt)
  }

  // GET, then DEL or DECR.
  function Decrement(s: State, k: WindowKey): map<WindowKey, Counter> {
    match Read(s, k)
    case Some(value) =>
      if value <= 1 then s.counters - {k} else s.counters[k := s.counters[k].(value := value - 1)]
    case None => s.counters
  }

  predicate IsUnreleased(history: seq<Event>, i: nat) {
    i < |history| && history[i].Accepted? && Released(i) !in history
  }

  predicate Enabled(c: Config, s: State, st: Step) {
    match st
    case Tick(to) => s.now <= to
    case Reserve(_, _) => ConfigOk(c)
    case Release(i) => IsUnreleased(s.history, i)
  }

  function Apply(c: Config, s: State, st: Step): State
    requires Enabled(c, s, st)
  {
    match st
    case Tick(to) => s.(now := to)
    case Reserve(user, answered) =>
      var k := WindowKey(user, WindowStart(c, s.now));
      var counter := Increment(c, s, k);
      var event := if !answered then Unanswered(k)
                   else if counter.value > c.limit then Rejected(k) else Accepted(k, s.now);
      s.(counters := s.counters[k := counter], history := s.history + [event])
    case Release(i) =>
      s.(counters := Decrement(s, s.history[i].key), history := s.history + [Released(i)])
  }

  ghost predicate Next(c: Config, s: State, t: State) {
    exists st :: Enabled(c, s, st) && t == Apply(c, s, st)
  }

  ghost predicate IsRun(c: Config, run: seq<State>) {
    && ConfigOk(c) && |run| > 0 && run[0].counters == map[] && run[0].history == []
    && forall i | 0 <= i < |run| - 1 :: Next(c, run[i], run[i + 1])
  }

  /* ----- Conservation ----- */

  function Unreleased(history: seq<Event>, k: WindowKey): set<nat> {
    set i | 0 <= i < |history| && IsUnreleased(history, i) && history[i].key == k
  }

  // What the window has counted for good: nobody will release it.
  function Spent(history: seq<Event>, k: WindowKey): set<nat> {
    set i | 0 <= i < |history| && (history[i] == Rejected(k) || history[i] == Unanswered(k))
  }

  function WindowEnd(c: Config, k: WindowKey): real {
    (k.start + c.windowSeconds) as real
  }

  // The counter is what it should be, as long as it is there or its window is open.
  ghost predicate Conserved(c: Config, s: State, k: WindowKey) {
    var value := Read(s, k);
    && (value.Some? || s.now < WindowEnd(c, k) ==>
          (if value.Some? then value.value else 0) == |Unreleased(s.history, k)| + |Spent(s.history, k)|)
    && |Unreleased(s.history, k)| <= c.limit
  }

  ghost predicate Inv(c: Config, s: State)
    requires ConfigOk(c)
  {
    && (forall k | k in s.counters :: WindowEnd(c, k) < s.counters[k].expiresAt)
    && (forall i | 0 <= i < |s.history| && s.history[i].Accepted? ::
          s.history[i].key.start == WindowStart(c, s.history[i].at) && s.history[i].at <= s.now)
    && (forall i | 0 <= i < |s.history| && s.history[i].Released? :: s.history[i].reservation < i)
    && (forall k :: Conserved(c, s, k))
  }

  lemma ReservedAppends(history: seq<Event>, e: Event, k: WindowKey)
    requires !e.Released? && Released(|history|) !in history
    ensures Unreleased(history + [e], k)
            == Unreleased(history, k) + if e.Accepted? && e.key == k then {|history|} else {}
    ensures Spent(history + [e], k)
            == Spent(history, k) + if e == Rejected(k) || e == Unanswered(k) then {|history|} else {}
  {
    var longer := history + [e];
    assert forall i | 0 <= i < |history| ::
        longer[i] == history[i] && (Released(i) in longer <==> Released(i) in history);
  }

  lemma ReleasedAppends(history: seq<Event>, r: nat, k: WindowKey)
    requires IsUnreleased(history, r)
    ensures Unreleased(history + [Released(r)], k) == Unreleased(history, k) - {r}
    ensures Spent(history + [Released(r)], k) == Spent(history, k)
  {
    var longer := history + [Released(r)];
    assert forall i | 0 <= i < |history| ::
        longer[i] == history[i] && (Released(i) in longer <==> i == r || Released(i) in history);
  }

  lemma TickConserves(c: Config, s: State, to: real)
    requires ConfigOk(c) && Inv(c, s) && s.now <= to
    ensures Inv(c, s.(now := to))
  {
    forall k ensures Conserved(c, s.(now := to), k) {
      assert Conserved(c, s, k);
    }
  }

  lemma OneMoreCounted(history: seq<Event>, e: Event, k: WindowKey)
    requires (e.Accepted? && e.key == k) || e == Rejected(k) || e == Unanswered(k)
    requires Released(|history|) !in history
    ensures |Unreleased(history + [e], k)| == |Unreleased(history, k)| + if e.Accepted? then 1 else 0
    ensures |Spent(history + [e], k)| == |Spent(history, k)| + if e.Accepted? then 0 else 1
  {
    ReservedAppends(history, e, k);
    assert |history| !in Unreleased(history, k) && |history| !in Spent(history, k);
  }

  lemma CurrentKeyConserves(c: Config, s: State, user: nat, answered: bool)
    requires ConfigOk(c) && Released(|s.history|) !in s.history
    requires Conserved(c, s, WindowKey(user, WindowStart(c, s.now)))
    requires var k := WindowKey(user, WindowStart(c, s.now));
             k in s.counters ==> WindowEnd(c, k) < s.counters[k].expiresAt
    ensures Conserved(c, Apply(c, s, Reserve(user, answered)), WindowKey(user, WindowStart(c, s.now)))
  {
    hide IsUnreleased, Unreleased, Spent;
    var k, t := WindowKey(user, WindowStart(c, s.now)), Apply(c, s, Reserve(user, answered));
    assert s.now < WindowEnd(c, k);
    OneMoreCounted(s.history, t.history[|s.history|], k);
  }

  lemma OtherKeyConserves(c: Config, s: State, user: nat, answered: bool, l: WindowKey)
    requires ConfigOk(c) && Released(|s.history|) !in s.history
    requires Conserved(c, s, l) && l != WindowKey(user, WindowStart(c, s.now))
    ensures Conserved(c, Apply(c, s, Reserve(user, answered)), l)
  {
    var t := Apply(c, s, Reserve(user, answered));
    ReservedAppends(s.history, t.history[|s.history|], l);
  }

  lemma ReserveConserves(c: Config, s: State, user: nat, answered: bool)
    requires ConfigOk(c) && Inv(c, s)
    ensures Inv(c, Apply(c, s, Reserve(user, answered)))
  {
    var k, t := WindowKey(user, WindowStart(c, s.now)), Apply(c, s, Reserve(user, answered));
    assert Released(|s.history|) !in s.history;
    assert Conserved(c, s, k);
    hide Conserved;
    CurrentKeyConserves(c, s, user, answered);
    forall l ensures Conserved(c, t, l) {
      assert Conserved(c, s, l);
      if l != k {
        OtherKeyConserves(c, s, user, answered, l);
      }
    }
  }

  lemma ReleaseConserves(c: Config, s: State, r: nat)
    requires ConfigOk(c) && Inv(c, s) && IsUnreleased(s.history, r)
    ensures Inv(c, Apply(c, s, Release(r)))
  {
    var t := Apply(c, s, Release(r));
    assert r in Unreleased(s.history, s.history[r].key);
    forall l ensures Conserved(c, t, l) {
      assert Conserved(c, s, l);
      ReleasedAppends(s.history, r, l);
    }
  }

  lemma {:induction false} ReachableKeepsInv(c: Config, run: seq<State>, i: nat)
    requires IsRun(c, run) && i < |run|
    ensures Inv(c, run[i])
  {
    if i > 0 {
      ReachableKeepsInv(c, run, i - 1);
      assert Next(c, run[i - 1], run[i - 1 + 1]);
      var st :| Enabled(c, run[i - 1], st) && run[i] == Apply(c, run[i - 1], st);
      match st {
        case Tick(to) => TickConserves(c, run[i - 1], to);
        case Reserve(user, answered) => ReserveConserves(c, run[i - 1], user, answered);
        case Release(r) => ReleaseConserves(c, run[i - 1], r);
      }
    } else {
      forall k ensures Conserved(c, run[0], k) {
        assert Unreleased(run[0].history, k) == {} && Spent(run[0].history, k) == {};
      }
    }
  }

  /* ----- What holds in every run ----- */

  /**
   Until the key expires, the counter is the accepted reservations that were not
   released plus what was spent on rejections and lost answers; a key that is not
   there while its window is open stands for zero.
   */
  lemma CounterIsConserved(c: Config, run: seq<State>, i: nat, k: WindowKey)
    requires IsRun(c, run) && i < |run|
    ensures var s := run[i];
            var counted := |Unreleased(s.history, k)| + |Spent(s.history, k)|;
            match Read(s, k)
            case Some(value) => value == counted
            case None => s.now < WindowEnd(c, k) ==> counted == 0
  {
    ReachableKeepsInv(c, run, i);
    assert Conserved(c, run[i], k);
  }

  /** A key lives on after the end of its window, so no window ever starts again from zero. */
  lemma KeysOutliveTheirWindow(c: Config, run: seq<State>, i: nat, k: WindowKey)
    requires IsRun(c, run) && i < |run| && k in run[i].counters
    ensures run[i].counters[k].expiresAt > WindowEnd(c, k)
  {
    ReachableKeepsInv(c, run, i);
  }

  /** In one window, a user never has more unreleased reservations than the limit. */
  lemma LimitHoldsInAWindow(c: Config, run: seq<State>, i: nat, k: WindowKey)
    requires IsRun(c, run) && i < |run|
    ensures |Unreleased(run[i].history, k)| <= c.limit
  {
    ReachableKeepsInv(c, run, i);
    assert Conserved(c, run[i], k);
  }

  /**
   An answered request is accepted exactly when the unreleased reservations, the
   rejections and the lost answers of the window leave room; a released reservation
   makes room, the others take it for good.
   */
  lemma AcceptedWhenThereIsRoom(c: Config, run: seq<State>, i: nat, user: nat)
    requires IsRun(c, run) && i < |run|
    ensures var s := run[i];
            var k := WindowKey(user, WindowStart(c, s.now));
            Apply(c, s, Reserve(user, true)).history[|s.history|]
            == if |Unreleased(s.history, k)| + |Spent(s.history, k)| < c.limit then Accepted(k, s.now) else Rejected(k)
  {
    var k := WindowKey(user, WindowStart(c, run[i].now));
    CounterIsConserved(c, run, i, k);
    assert run[i].now < WindowEnd(c, k);
  }

  // The user's unreleased reservations of the time from `t` on, for the length of a window.
  function Within(c: Config, history: seq<Event>, user: nat, t: real): set<nat> {
    set i | 0 <= i < |history| && IsUnreleased(history, i) && history[i].key.user == user
            && t <= history[i].at < t + c.windowSeconds as real
  }

  /** Whatever interval of one window length is looked at, it holds at most twice the limit. */
  lemma SlidingIntervalIsBounded(c: Config, run: seq<State>, i: nat, user: nat, t: real)
    requires IsRun(c, run) && i < |run|
    ensures |Within(c, run[i].history, user, t)| <= 2 * c.limit
  {
    var h := run[i].history;
    var first, second := WindowKey(user, WindowStart(c, t)), WindowKey(user, ResetEpoch(c, t));
    ReachableKeepsInv(c, run, i);
    LimitHoldsInAWindow(c, run, i, first);
    LimitHoldsInAWindow(c, run, i, second);
    forall r | r in Within(c, h, user, t) ensures r in Unreleased(h, first) + Unreleased(h, second) {
      assert WindowStart(c, t) <= Epoch(h[r].at) < WindowStart(c, t) + 2 * c.windowSeconds;
      SameOrNextWindow(c, t, h[r].at);
    }
    SubsetSize(Within(c, h, user, t), Unreleased(h, first) + Unreleased(h, second));
  }

  /* ----- The limiter over its Redis keys ----- */

  datatype Reservation = Reservation(key: WindowKey, limit: nat, used: nat, remaining: nat, retryAfterSeconds: int,
                                     resetEpoch: int)

  // The answer to reserve; without Redis the limiter lets everybody through.
  datatype Outcome = Granted(reservation: Reservation) | Exceeded(retryAfterSeconds: int, resetEpoch: int) | FailedOpen

  class RateLimiter {
    const config: Config
    var now: real
    var counters: map<WindowKey, Counter>
    ghost var history: seq<Event>
    ghost var run: seq<State>

    ghost function Snapshot(): State
      reads this
    {
      State(now, counters, history)
    }

    ghost predicate Valid()
      reads this
    {
      IsRun(config, run) && run[|run| - 1] == Snapshot()
    }

    constructor (config: Config, now: real)
      requires ConfigOk(config)
      ensures Valid() && this.config == config && this.now == now && history == []
    {
      this.config, this.now, counters, history := config, now, map[], [];
      run := [State(now, map[], [])];
    }

    ghost method Record(before: State, st: Step)
      requires IsRun(config, run) && run[|run| - 1] == before
      requires Enabled(config, before, st) && Snapshot() == Apply(config, before, st)
      modifies `run
      ensures Valid() && run == old(run) + [Snapshot()]
    {
      ghost var shorter := run;
      run := run + [Snapshot()];
      forall i | 0 <= i < |run| - 1 ensures Next(config, run[i], run[i + 1]) {
        if i < |shorter| - 1 {
          assert Next(config, shorter[i], shorter[i + 1]);
        }
      }
    }

    method Advance(to: real)
      requires Valid() && now <= to
      modifies this
      ensures Valid() && old(run) <= run && now == to && history == old(history) && counters == old(counters)
    {
      now := to;
      Record(old(Snapshot()), Tick(to));
    }

    method Get(k: WindowKey) returns (value: Option<nat>)
      ensures value == Read(State(now, counters, []), k)
    {
      value := if k in counters && now < counters[k].expiresAt then Some(counters[k].value) else None;
    }

    // The first script: INCR, and EXPIRE when the key is new.
    method IncrementScript(k: WindowKey) returns (current: nat)
      modifies `counters
      ensures current == Increment(config, old(Snapshot()), k).value
      ensures counters == old(counters)[k := Increment(config, old(Snapshot()), k)]
      ensures k in counters &&
              if k in old(counters) && now < old(counters)[k].expiresAt && old(counters)[k].value > 0
              then counters[k] == Counter(old(counters)[k].value + 1, old(counters)[k].expiresAt)
              else counters[k] == Counter(1, now + (config.windowSeconds + 5) as real)
    {
      var value := Get(k);
      current := if value.Some? then value.value + 1 else 1;
      if current == 1 {
        counters := counters[k := Counter(current, now + (config.windowSeconds + KEY_EXPIRY_MARGIN_SECONDS) as real)];
      } else {
        counters := counters[k := counters[k].(value := current)];
      }
    }

    // The second script: DEL at one, DECR above.
    method ReleaseScript(k: WindowKey)
      modifies `counters
      ensures counters == Decrement(old(Snapshot()), k)
      ensures k in counters ==> k in old(counters)
      ensures k in old(counters) && now < old(counters)[k].expiresAt ==>
                if old(counters)[k].value <= 1 then k !in counters
                else k in counters && counters[k] == Counter(old(counters)[k].value - 1, old(counters)[k].expiresAt)
    {
      var value := Get(k);
      if value == None {
        return;
      }
      if value.value <= 1 {
        counters := counters - {k};
      } else {
        counters := counters[k := counters[k].(value := value.value - 1)];
      }
    }

    /**
     Counts the request in its window; the answer follows from what the window has
     accepted, released and spent.  Redis may run the script and answer, run it and lose
     the answer, or not run it; without an answer the caller goes on.
     */
    method Reserve(user: nat, runs: bool, answers: bool) returns (outcome: Outcome)
      requires Valid()
      modifies this
      ensures Valid() && old(run) <= run && now == old(now)
      ensures !runs ==> outcome == FailedOpen && history == old(history) && counters == old(counters)
      ensures runs && !answers ==>
                && outcome == FailedOpen
                && history == old(history) + [Unanswered(WindowKey(user, WindowStart(config, now)))]
      ensures runs && answers ==>
                var k := WindowKey(user, WindowStart(config, now));
                var counted := |Unreleased(old(history), k)| + |Spent(old(history), k)|;
                if counted < config.limit then
                  && history == old(history) + [Accepted(k, now)]
                  && outcome == Granted(Reservation(k, config.limit, counted + 1, config.limit - counted - 1,
                                                    RetryAfterSeconds(config, now), ResetEpoch(config, now)))
                else
                  && history == old(history) + [Rejected(k)]
                  && outcome == Exceeded(RetryAfterSeconds(config, now), ResetEpoch(config, now))
    {
      if !runs {
        return FailedOpen;
      }
      var k := WindowKey(user, WindowStart(config, now));
      AcceptedWhenThereIsRoom(config, run, |run| - 1, user);
      CounterIsConserved(config, run, |run| - 1, k);
      assert now < WindowEnd(config, k);
      ghost var before := Snapshot();
      var used := IncrementScript(k);
      var retryAfter, reset := RetryAfterSeconds(config, now), ResetEpoch(config, now);
      if !answers {
        outcome := FailedOpen;
        history := history + [Unanswered(k)];
      } else if used > config.limit {
        outcome := Exceeded(retryAfter, reset);
        history := history + [Rejected(k)];
      } else {
        outcome := Granted(Reservation(k, config.limit, used, Max(config.limit - used, 0), retryAfter, reset));
        history := history + [Accepted(k, now)];
      }
      Record(before, Step.Reserve(user, answers));
    }

    // Gives reservation `r` of the history back.
    method Release(ghost r: nat, reservation: Reservation, available: bool)
      requires Valid() && IsUnreleased(history, r) && history[r].key == reservation.key
      modifies this
      ensures Valid() && old(run) <= run && now == old(now)
      ensures history == if available then old(history) + [Released(r)] else old(history)
      ensures !available ==> counters == old(counters)
    {
      if available {
        ghost var before := Snapshot();
        ReleaseScript(reservation.key);
        history := history + [Released(r)];
        Record(before, Step.Release(r));
      }
    }
  }
}
