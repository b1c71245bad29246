/**
 The versioned cache of job list pages.  A page is stored under the version of its
 scope; a change of a job increments the version of its owner's list and of the
 administrators' list, so that the pages stored before are not found any more.
 Reading the version and touching the page are two commands, and others may run in
 between.
 */
module ListCache {
  import opened Wrappers
  import opened JobState

  const VERSION_TTL_SECONDS: nat := 7 * 24 * 60 * 60

  /* ----- Pages and their encoding ----- */

  datatype JobPublic = JobPublic(
    id: nat, owner: nat, kind: string, payload: string, status: Status, idempotencyKey: string,
    createdAt: int, updatedAt: int, cancelRequestedAt: Option<int>, attemptCount: nat)

  datatype Page = Page(items: seq<JobPublic>, nextCursor: Option<string>)

  // The fields of an encoded item, and those of the API's response.
  datatype Item = Item(
    id: nat, owner: nat, kind: string, payload: string, status: Status, idempotencyKey: string,
    createdAt: int, updatedAt: int, cancelRequestedAt: Option<int>)

  datatype Encoded = Encoded(items: seq<Item>, nextCursor: Option<string>)

  function EncodeItem(job: JobPublic): Item {
    Item(job.id, job.owner, job.kind, job.payload, job.status, job.idempotencyKey, job.createdAt, job.updatedAt,
         job.cancelRequestedAt)
  }

  function DecodeItem(item: Item): JobPublic {
    JobPublic(item.id, item.owner, item.kind, item.payload, item.status, item.idempotencyKey, item.createdAt,
              item.updatedAt, item.cancelRequestedAt, 0)
  }

  function EncodePage(page: Page): Encoded {
    Encoded(seq(|page.items|, i requires 0 <= i < |page.items| => EncodeItem(page.items[i])), page.nextCursor)
  }

  function DecodePage(encoded: Encoded): Page {
    Page(seq(|encoded.items|, i requires 0 <= i < |encoded.items| => DecodeItem(encoded.items[i])), encoded.nextCursor)
  }

  // JobListResponse: the attempt count of a job is not among its fields.
  function Response(page: Page): Encoded {
    EncodePage(page)
  }

  /** A page comes back from the cache with every field of the response; its attempt counts come back as zero. */
  lemma PagesComeBack(page: Page)
    ensures Response(DecodePage(EncodePage(page))) == Response(page)
    ensures DecodePage(EncodePage(page)) == page
            <==> forall i | 0 <= i < |page.items| :: page.items[i].attemptCount == 0
  {
    var back := DecodePage(EncodePage(page));
    assert |back.items| == |page.items|;
    if forall i | 0 <= i < |page.items| :: page.items[i].attemptCount == 0 {
      assert forall i | 0 <= i < |page.items| :: back.items[i] == page.items[i];
      assert back.items == page.items;
    } else {
      var i :| 0 <= i < |page.items| && page.items[i].attemptCount != 0;
      assert back.items[i].attemptCount == 0;
    }
  }

  /* ----- The table, keys, versions and entries ----- */

  // An owner's list, or the list of all jobs.
  type Scope = Option<nat>

  datatype Query = Query(scope: Scope, cursor: Option<string>, limit: nat)

  // `list` is the page that the database gives for a query on the rows of its scope.
  datatype Config = Config(cacheTtlSeconds: nat, list: (map<nat, JobPublic>, Query) -> Page)

  datatype CacheKey = CacheKey(scope: Scope, version: nat, cursor: string, limit: nat)

  // The hash of the cursor stands for the cursor; no cursor is hashed as the empty one.
  function KeyOf(q: Query, version: nat): CacheKey {
    CacheKey(q.scope, version, if q.cursor.Some? then q.cursor.value else "", q.limit)
  }

  // `generation` counts how often the key has expired; Redis does not know it.
  datatype Version = Version(value: nat, expiresAt: int, generation: nat)

  datatype Seen = Seen(generation: nat, value: nat)

  // What there was to see of a scope: its version, the invalidations and the changes up to then, and its rows.
  datatype Look = Look(seen: Seen, invalidations: nat, changes: nat, rows: map<nat, JobPublic>)

  // A stored page, with the circumstances of its storing: the read of the table, then the look at the version.
  datatype Entry = Entry(encoded: Encoded, expiresAt: int, query: Query, page: Page, read: Look, look: Look,
                         writtenAt: int, invalidationsAtWrite: nat)

  datatype Session =
    | Listed(query: Query, look: Look)
    | Setting(query: Query, read: Look, look: Look)
    | Getting(query: Query, look: Look)
    | Got(query: Query, look: Look, hit: Option<Entry>, at: int)

  datatype State = State(
    now: int,
    table: map<nat, JobPublic>,
    changes: map<Scope, nat>,
    versions: map<Scope, Version>,
    pages: map<CacheKey, Entry>,
    invalidations: map<Scope, nat>,
    sessions: map<nat, Session>,
    looks: set<(Scope, Look)>)     // history: every look at a scope

  datatype Step =
    | Tick(to: int)
    | Change(job: JobPublic)       // a commit that inserts or updates this row
    | ReadTable(a: nat, query: Query)
    | BeginSet(a: nat)
    | Write(a: nat)
    | BeginGet(a: nat, query: Query)
    | Fetch(a: nat)
    | Invalidate(owner: nat)

  // _get_version; an expired key reads as zero.
  function Current(s: State, scope: Scope): Seen {
    if scope !in s.versions then Seen(0, 0)
    else if s.now < s.versions[scope].expiresAt then Seen(s.versions[scope].generation, s.versions[scope].value)
    else Seen(s.versions[scope].generation + 1, 0)
  }

  function Invalidations(s: State, scope: Scope): nat {
    if scope in s.invalidations then s.invalidations[scope] else 0
  }

  function Changes(s: State, scope: Scope): nat {
    if scope in s.changes then s.changes[scope] else 0
  }

  // The rows of an owner, or all rows.
  function Visible(table: map<nat, JobPublic>, scope: Scope): map<nat, JobPublic> {
    map j | j in table && (scope == None || table[j].owner == scope.value) :: table[j]
  }

  function LookAt(s: State, scope: Scope): Look {
    Look(Current(s, scope), Invalidations(s, scope), Changes(s, scope), Visible(s.table, scope))
  }

  // INCR and EXPIRE.
  function Bumped(s: State, scope: Scope): Version {
    Version(Current(s, scope).value + 1, s.now + VERSION_TTL_SECONDS, Current(s, scope).generation)
  }

  function Lookup(s: State, k: CacheKey): Option<Entry> {
    if k in s.pages && s.now < s.pages[k].expiresAt then Some(s.pages[k]) else None
  }

  predicate Enabled(s: State, st: Step) {
    match st
    case Tick(to) => s.now <= to
    case Change(job) => job.id in s.table ==> s.table[job.id].owner == job.owner
    case ReadTable(a, _) => a !in s.sessions
    case BeginSet(a) => a in s.sessions && s.sessions[a].Listed?
    case Write(a) => a in s.sessions && s.sessions[a].Setting?
    case BeginGet(a, _) => a !in s.sessions
    case Fetch(a) => a in s.sessions && s.sessions[a].Getting?
    case Invalidate(_) => true
  }

  function Apply(c: Config, s: State, st: Step): State
    requires Enabled(s, st)
  {
    match st
    case Tick(to) => s.(now := to)
    case Change(job) =>
      s.(table := s.table[job.id := job],
         changes := s.changes[Some(job.owner) := Changes(s, Some(job.owner)) + 1][None := Changes(s, None) + 1])
    case ReadTable(a, q) =>
      s.(sessions := s.sessions[a := Listed(q, LookAt(s, q.scope))],
         looks := s.looks + {(q.scope, LookAt(s, q.scope))})
    case BeginSet(a) =>
      var q := s.sessions[a].query;
      s.(sessions := s.sessions[a := Setting(q, s.sessions[a].look, LookAt(s, q.scope))],
         looks := s.looks + {(q.scope, LookAt(s, q.scope))})
    case Write(a) =>
      var x := s.sessions[a];
      var page := c.list(x.read.rows, x.query);
      var entry := Entry(EncodePage(page), s.now + c.cacheTtlSeconds, x.query, page, x.read, x.look, s.now,
                         Invalidations(s, x.query.scope));
      s.(pages := s.pages[KeyOf(x.query, x.look.seen.value) := entry], sessions := s.sessions - {a})
    case BeginGet(a, q) =>
      s.(sessions := s.sessions[a := Getting(q, LookAt(s, q.scope))],
         looks := s.looks + {(q.scope, LookAt(s, q.scope))})
    case Fetch(a) =>
      var x := s.sessions[a];
      s.(sessions := s.sessions[a := Got(x.query, x.look, Lookup(s, KeyOf(x.query, x.look.seen.value)), s.now)])
    case Invalidate(owner) =>
      s.(versions := s.versions[Some(owner) := Bumped(s, Some(owner))][None := Bumped(s, None)],
         invalidations := s.invalidations[Some(owner) := Invalidations(s, Some(owner)) + 1]
                                         [None := Invalidations(s, None) + 1])
  }

  ghost predicate Next(c: Config, s: State, t: State) {
    exists st :: Enabled(s, st) && t == Apply(c, s, st)
  }

  ghost predicate IsRun(c: Config, run: seq<State>) {
    && |run| > 0 && run[0] == State(run[0].now, map[], map[], map[], map[], map[], map[], {})
    && forall i | 0 <= i < |run| - 1 :: Next(c, run[i], run[i + 1])
  }

  /* ----- The invariant ----- */

  predicate Earlier(x: Seen, y: Seen) {
    x.generation < y.generation || (x.generation == y.generation && x.value < y.value)
  }

  // Two looks at one scope agree on the invalidations exactly when they agree on the version,
  // except that an expired key reads as zero.
  predicate Consistent(x: Look, y: Look) {
    && (x.seen == y.seen ==> x.invalidations == y.invalidations)
    && (x.invalidations == y.invalidations ==> x.seen == y.seen || x.seen.value != y.seen.value)
    && (x.changes == y.changes ==> x.rows == y.rows)
  }

  // The look `x` was taken before, or at the time of, look `y` at the same scope.
  predicate Precedes(x: Look, y: Look) {
    && (x.seen == y.seen || Earlier(x.seen, y.seen))
    && x.invalidations <= y.invalidations && x.changes <= y.changes && (x.changes == y.changes ==> x.rows == y.rows)
    && (x.seen == y.seen ==> x.invalidations == y.invalidations)
    && (x.invalidations == y.invalidations ==> x.seen == y.seen || (x.seen.value > 0 && y.seen.value == 0))
  }

  ghost predicate VersionsInv(s: State) {
    forall scope | scope in s.versions :: s.versions[scope].value > 0
  }

  ghost predicate LooksInv(s: State) {
    && (forall scope, x | (scope, x) in s.looks :: Precedes(x, LookAt(s, scope)))
    && (forall scope, x, y | (scope, x) in s.looks && (scope, y) in s.looks :: Consistent(x, y))
  }

  ghost predicate EntryInv(c: Config, s: State, k: CacheKey, e: Entry) {
    && k == KeyOf(e.query, e.look.seen.value)
    && (e.query.scope, e.look) in s.looks && (e.query.scope, e.read) in s.looks
    && e.page == c.list(e.read.rows, e.query) && e.encoded == EncodePage(e.page)
    && e.expiresAt == e.writtenAt + c.cacheTtlSeconds
    && e.look.invalidations <= e.invalidationsAtWrite && e.read.changes <= e.look.changes
  }

  ghost predicate PagesInv(c: Config, s: State) {
    forall k | k in s.pages ::
      && EntryInv(c, s, k, s.pages[k])
      && s.pages[k].invalidationsAtWrite <= Invalidations(s, s.pages[k].query.scope)
  }

  ghost predicate SessionInv(c: Config, s: State, x: Session) {
    && (x.query.scope, x.look) in s.looks
    && (x.Setting? ==> (x.query.scope, x.read) in s.looks && x.read.changes <= x.look.changes)
    && (x.Got? && x.hit.Some? ==>
          && EntryInv(c, s, KeyOf(x.query, x.look.seen.value), x.hit.value)
          && x.at < x.hit.value.expiresAt)
  }

  ghost predicate SessionsInv(c: Config, s: State) {
    forall a | a in s.sessions :: SessionInv(c, s, s.sessions[a])
  }

  ghost predicate Inv(c: Config, s: State) {
    VersionsInv(s) && LooksInv(s) && PagesInv(c, s) && SessionsInv(c, s)
  }

  // From `s` to `t`, what a new look at a scope would see has only moved on.
  ghost predicate MovesOn(s: State, t: State) {
    forall scope :: Precedes(LookAt(s, scope), LookAt(t, scope))
  }

  lemma TickMovesOn(s: State, to: int)
    requires VersionsInv(s) && s.now <= to
    ensures MovesOn(s, s.(now := to))
  {
  }

  lemma ChangeMovesOn(c: Config, s: State, job: JobPublic)
    requires Enabled(s, Change(job))
    ensures MovesOn(s, Apply(c, s, Change(job)))
  {
    var t := Apply(c, s, Change(job));
    forall scope: Scope | scope != None && scope != Some(job.owner)
      ensures Visible(t.table, scope) == Visible(s.table, scope)
    {
    }
  }

  lemma InvalidateMovesOn(c: Config, s: State, owner: nat)
    ensures MovesOn(s, Apply(c, s, Invalidate(owner)))
    ensures VersionsInv(s) ==> VersionsInv(Apply(c, s, Invalidate(owner)))
  {
  }

  // The other steps change nothing that there is to see.
  lemma ClientsChangeNothing(c: Config, s: State, st: Step)
    requires Enabled(s, st) && !st.Tick? && !st.Change? && !st.Invalidate?
    ensures var t := Apply(c, s, st);
            && t.now == s.now && t.table == s.table && t.changes == s.changes && t.versions == s.versions
            && t.invalidations == s.invalidations
  {
  }

  lemma SameSights(s: State, t: State)
    requires t.now == s.now && t.table == s.table && t.changes == s.changes && t.versions == s.versions
    requires t.invalidations == s.invalidations
    ensures MovesOn(s, t) && forall scope :: LookAt(t, scope) == LookAt(s, scope)
  {
  }

  lemma StepMovesOn(c: Config, s: State, st: Step)
    requires VersionsInv(s) && Enabled(s, st)
    ensures VersionsInv(Apply(c, s, st)) && MovesOn(s, Apply(c, s, st))
  {
    hide MovesOn;
    match st
    case Tick(to) => TickMovesOn(s, to);
    case Change(job) => ChangeMovesOn(c, s, job);
    case Invalidate(owner) => InvalidateMovesOn(c, s, owner);
    case _ =>
      ClientsChangeNothing(c, s, st);
      SameSights(s, Apply(c, s, st));
  }

  lemma LooksMoveOn(s: State, t: State)
    requires LooksInv(s) && MovesOn(s, t) && t.looks == s.looks
    requires VersionsInv(t)
    ensures LooksInv(t)
  {
  }

  // The scope that a client looks at in this step.
  function LookedAt(s: State, st: Step): Option<Scope>
    requires Enabled(s, st)
  {
    match st
    case ReadTable(_, q) => Some(q.scope)
    case BeginSet(a) => Some(s.sessions[a].query.scope)
    case BeginGet(_, q) => Some(q.scope)
    case _ => None
  }

  lemma LooksAreRemembered(c: Config, s: State, st: Step)
    requires Enabled(s, st)
    ensures Apply(c, s, st).looks == s.looks + match LookedAt(s, st)
                                               case Some(scope) => {(scope, LookAt(s, scope))}
                                               case None => {}
  {
  }

  lemma NewLookIsConsistent(s: State, t: State, scope: Scope)
    requires LooksInv(s) && t.looks == s.looks + {(scope, LookAt(s, scope))}
    requires forall sc :: LookAt(t, sc) == LookAt(s, sc)
    ensures LooksInv(t)
  {
  }

  lemma StepKeepsLooks(c: Config, s: State, st: Step)
    requires VersionsInv(s) && LooksInv(s) && Enabled(s, st)
    ensures LooksInv(Apply(c, s, st))
  {
    hide LooksInv, MovesOn, LookAt;
    var t := Apply(c, s, st);
    StepMovesOn(c, s, st);
    LooksAreRemembered(c, s, st);
    match LookedAt(s, st)
    case None =>
      assert t.looks == s.looks;
      LooksMoveOn(s, t);
    case Some(scope) =>
      ClientsChangeNothing(c, s, st);
      SameSights(s, t);
      NewLookIsConsistent(s, t, scope);
  }

  lemma LooksArePast(c: Config, s: State, x: Session)
    requires LooksInv(s) && SessionInv(c, s, x)
    ensures x.look.invalidations <= Invalidations(s, x.query.scope)
  {
    assert Precedes(x.look, LookAt(s, x.query.scope));
  }

  lemma WriteKeepsPages(c: Config, s: State, a: nat)
    requires LooksInv(s) && PagesInv(c, s) && SessionsInv(c, s) && Enabled(s, Write(a))
    ensures PagesInv(c, Apply(c, s, Write(a)))
  {
    hide LooksInv, Visible, Current;
    assert SessionInv(c, s, s.sessions[a]);
    LooksArePast(c, s, s.sessions[a]);
  }

  lemma OthersKeepPages(c: Config, s: State, t: State)
    requires PagesInv(c, s) && t.pages == s.pages && s.looks <= t.looks
    requires forall scope :: Invalidations(s, scope) <= Invalidations(t, scope)
    ensures PagesInv(c, t)
  {
  }

  lemma StepKeepsPages(c: Config, s: State, st: Step)
    requires LooksInv(s) && PagesInv(c, s) && SessionsInv(c, s) && Enabled(s, st)
    ensures PagesInv(c, Apply(c, s, st))
  {
    hide PagesInv, LooksInv, SessionsInv, LookAt;
    if st.Write? {
      WriteKeepsPages(c, s, st.a);
    } else {
      LooksAreRemembered(c, s, st);
      StepSeesMore(c, s, st, 0);
      OthersKeepPages(c, s, Apply(c, s, st));
    }
  }

  lemma StepKeepsSessions(c: Config, s: State, st: Step)
    requires LooksInv(s) && PagesInv(c, s) && SessionsInv(c, s) && Enabled(s, st)
    ensures SessionsInv(c, Apply(c, s, st))
  {
    hide Visible, Current, Consistent, Bumped;
  }

  lemma {:induction false} ReachableKeepsInv(c: Config, run: seq<State>, i: nat)
    requires IsRun(c, run) && i < |run|
    ensures Inv(c, run[i])
  {
    if i > 0 {
      ReachableKeepsInv(c, run, i - 1);
      assert Next(c, run[i - 1], run[i - 1 + 1]);
      var st :| Enabled(run[i - 1], st) && run[i] == Apply(c, run[i - 1], st);
      StepMovesOn(c, run[i - 1], st);
      StepKeepsLooks(c, run[i - 1], st);
      StepKeepsPages(c, run[i - 1], st);
      StepKeepsSessions(c, run[i - 1], st);
    }
  }

  /* ----- What a hit is ----- */

  // Session `a` asked for a page and got the stored page `e`.
  ghost predicate Hit(s: State, a: nat, e: Entry) {
    a in s.sessions && s.sessions[a].Got? && s.sessions[a].hit == Some(e)
  }

  /** Two queries share a stored page only under one version, scope, limit and cursor; none is like an empty one. */
  lemma SharedKeys(q: Query, v: nat, r: Query, w: nat)
    ensures KeyOf(q, v) == KeyOf(r, w) <==>
            && q.scope == r.scope && v == w && q.limit == r.limit
            && (q.cursor == r.cursor || (q.cursor in {None, Some("")} && r.cursor in {None, Some("")}))
  {
  }

  /**
   A hit has the scope and the limit of the query, and its cursor unless one of the
   two is missing and the other one empty; it is younger than the time to live, and
   it equals the page that was stored in every field of the response.
   */
  lemma HitsMatchTheirQuery(c: Config, run: seq<State>, i: nat, a: nat, e: Entry)
    requires IsRun(c, run) && i < |run| && Hit(run[i], a, e)
    ensures var x := run[i].sessions[a];
            && e.query.scope == x.query.scope && e.query.limit == x.query.limit
            && (e.query.cursor == x.query.cursor
                || (e.query.cursor in {None, Some("")} && x.query.cursor in {None, Some("")}))
            && x.at - e.writtenAt < c.cacheTtlSeconds
            && Response(DecodePage(e.encoded)) == Response(e.page)
  {
    ReachableKeepsInv(c, run, i);
    assert SessionInv(c, run[i], run[i].sessions[a]);
    PagesComeBack(e.page);
  }

  /**
   No invalidation came between the looks of the two sides exactly when the version
   key did not expire between them.
   */
  lemma HitsAreFreshUnlessTheVersionExpired(c: Config, run: seq<State>, i: nat, a: nat, e: Entry)
    requires IsRun(c, run) && i < |run| && Hit(run[i], a, e)
    ensures var look := run[i].sessions[a].look;
            e.look.invalidations == look.invalidations <==> e.look.seen.generation == look.seen.generation
  {
    ReachableKeepsInv(c, run, i);
    assert SessionInv(c, run[i], run[i].sessions[a]);
  }

  // What has been invalidated is counted for good, and a new look counts it.
  lemma StepSeesMore(c: Config, s: State, st: Step, a: nat)
    requires Enabled(s, st)
    ensures forall scope :: Invalidations(s, scope) <= Invalidations(Apply(c, s, st), scope)
    ensures a in Apply(c, s, st).sessions ==>
              var x := Apply(c, s, st).sessions[a];
              || x.look.invalidations == Invalidations(s, x.query.scope)
              || (a in s.sessions && x.query == s.sessions[a].query && x.look == s.sessions[a].look)
  {
  }

  // Since state `r`, nothing that was counted is forgotten, and client `a` has counted all of it.
  ghost predicate SeesAll(r: State, s: State, a: nat) {
    && (forall scope :: Invalidations(r, scope) <= Invalidations(s, scope))
    && (a in s.sessions ==> Invalidations(r, s.sessions[a].query.scope) <= s.sessions[a].look.invalidations)
  }

  lemma NextSeesAll(c: Config, r: State, s: State, t: State, a: nat)
    requires Next(c, s, t) && SeesAll(r, s, a)
    ensures SeesAll(r, t, a)
  {
    var st :| Enabled(s, st) && t == Apply(c, s, st);
    hide Apply, Enabled;
    StepSeesMore(c, s, st, a);
  }

  lemma NewcomersSeeAll(s: State, a: nat)
    requires a !in s.sessions
    ensures SeesAll(s, s, a)
  {
  }

  lemma RunStep(c: Config, run: seq<State>, i: nat)
    requires IsRun(c, run) && 0 < i < |run|
    ensures Next(c, run[i - 1], run[i])
  {
    assert Next(c, run[i - 1], run[i - 1 + 1]);
  }

  lemma {:induction false} LaterLooksSeeAll(c: Config, run: seq<State>, v: nat, i: nat, a: nat)
    requires IsRun(c, run) && v <= i < |run| && a !in run[v].sessions
    ensures SeesAll(run[v], run[i], a)
  {
    hide Next, SeesAll, IsRun;
    if v < i {
      RunStep(c, run, i);
      LaterLooksSeeAll(c, run, v, i - 1, a);
      NextSeesAll(c, run[v], run[i - 1], run[i], a);
    } else {
      NewcomersSeeAll(run[v], a);
    }
  }

  // The state after step `v` of the run comes from invalidating the lists with this owner's jobs.
  ghost predicate Invalidates(c: Config, run: seq<State>, v: nat, owner: nat)
    requires v + 1 < |run|
  {
    run[v + 1] == Apply(c, run[v], Invalidate(owner))
  }

  /**
   A page that was stored before an invalidation of its scope is not returned to
   anyone who asks after it, unless the version key expired in between: neither to
   the owner nor to an administrator.
   */
  lemma InvalidatedPagesAreNotReturned(c: Config, run: seq<State>, v: nat, owner: nat, k: CacheKey, i: nat, a: nat)
    requires IsRun(c, run) && v + 1 < |run| && Invalidates(c, run, v, owner)
    requires k in run[v].pages && run[v].pages[k].query.scope in {Some(owner), None}
    requires v + 1 <= i < |run| && a !in run[v + 1].sessions && Hit(run[i], a, run[v].pages[k])
    ensures run[v].pages[k].look.seen.generation != run[i].sessions[a].look.seen.generation
  {
    var e := run[v].pages[k];
    ReachableKeepsInv(c, run, v);
    HitsMatchTheirQuery(c, run, i, a, e);
    HitsAreFreshUnlessTheVersionExpired(c, run, i, a, e);
    LaterLooksSeeAll(c, run, v + 1, i, a);
    assert EntryInv(c, run[v], k, e) && e.invalidationsAtWrite <= Invalidations(run[v], e.query.scope);
  }

  // Since the look `x`, every change of the scope that look `y` sees was followed by its invalidation.
  predicate Announced(x: Look, y: Look) {
    y.changes - x.changes <= y.invalidations - x.invalidations
  }

  /**
   A hit is the listing of the rows that were read for it.  As long as the version key
   does not expire, these rows are as new as the moment when the page was asked for
   exactly if nothing of the scope was committed between the read and the first look
   at the version, and whatever was committed between the two looks was invalidated.
   */
  lemma HitsAreListings(c: Config, run: seq<State>, i: nat, a: nat, e: Entry)
    requires IsRun(c, run) && i < |run| && Hit(run[i], a, e)
    ensures e.page == c.list(e.read.rows, e.query)
    ensures var look := run[i].sessions[a].look;
            && (e.look.seen.generation == look.seen.generation ==>
                  (e.read.changes >= look.changes
                   <==> e.read.changes >= Min(e.look.changes, look.changes) && Announced(e.look, look)))
            && (e.read.changes == look.changes ==>
                  Response(DecodePage(e.encoded)) == Response(c.list(look.rows, e.query)))
  {
    ReachableKeepsInv(c, run, i);
    assert SessionInv(c, run[i], run[i].sessions[a]);
    HitsAreFreshUnlessTheVersionExpired(c, run, i, a, e);
    PagesComeBack(e.page);
  }

  /* ----- Three runs that one may not expect ----- */

  ghost predicate Reached(c: Config, run: seq<State>, s: State) {
    IsRun(c, run) && run[|run| - 1] == s
  }

  lemma Extend(c: Config, run: seq<State>, s: State, st: Step) returns (longer: seq<State>)
    requires Reached(c, run, s) && Enabled(s, st)
    ensures Reached(c, longer, Apply(c, s, st)) && longer == run + [Apply(c, s, st)]
  {
    longer := run + [Apply(c, s, st)];
    forall i | 0 <= i < |longer| - 1 ensures Next(c, longer[i], longer[i + 1]) {
      if i < |run| - 1 {
        assert Next(c, run[i], run[i + 1]);
      }
    }
  }

  function Start(now: int): State {
    State(now, map[], map[], map[], map[], map[], map[], {})
  }

  // A page is listed and stored.
  lemma ListAndStore(c: Config, run: seq<State>, s: State, a: nat, q: Query) returns (longer: seq<State>, t: State)
    requires Reached(c, run, s) && a !in s.sessions
    ensures Reached(c, longer, t) && run <= longer && t.now == s.now && t.versions == s.versions
    ensures t.table == s.table && t.invalidations == s.invalidations
    ensures var k := KeyOf(q, Current(s, q.scope).value);
            && k in t.pages && t.pages[k].query == q && t.pages[k].expiresAt == s.now + c.cacheTtlSeconds
            && t.pages[k].read == LookAt(s, q.scope)
    ensures t.sessions == s.sessions
  {
    hide Visible, IsRun, Next;
    longer := Extend(c, run, s, ReadTable(a, q));
    var s1 := Apply(c, s, ReadTable(a, q));
    longer := Extend(c, longer, s1, BeginSet(a));
    var s2 := Apply(c, s1, BeginSet(a));
    longer := Extend(c, longer, s2, Write(a));
    t := Apply(c, s2, Write(a));
    assert t.sessions == s.sessions;
  }

  // A page is asked for and found.
  lemma LookAndFind(c: Config, run: seq<State>, s: State, a: nat, q: Query) returns (longer: seq<State>)
    requires Reached(c, run, s) && a !in s.sessions
    requires Lookup(s, KeyOf(q, Current(s, q.scope).value)).Some?
    ensures longer != [] && IsRun(c, longer) && run <= longer
    ensures var t := longer[|longer| - 1];
            && Hit(t, a, s.pages[KeyOf(q, Current(s, q.scope).value)]) && t.sessions[a].query == q
            && t.sessions[a].look == LookAt(s, q.scope)
  {
    longer := Extend(c, run, s, BeginGet(a, q));
    var s1 := Apply(c, s, BeginGet(a, q));
    longer := Extend(c, longer, s1, Fetch(a));
    assert Apply(c, s1, Fetch(a)).sessions[a].hit == Some(s.pages[KeyOf(q, Current(s, q.scope).value)]);
  }

  /** A request with an empty cursor is answered with the first page, once that one is stored. */
  lemma EmptyCursorsHitTheFirstPage(list: (map<nat, JobPublic>, Query) -> Page, scope: Scope, limit: nat)
      returns (c: Config, run: seq<State>, e: Entry)
    ensures c.list == list && IsRun(c, run) && Hit(run[|run| - 1], 1, e)
    ensures e.query == Query(scope, None, limit) && run[|run| - 1].sessions[1].query == Query(scope, Some(""), limit)
  {
    c := Config(30, list);
    assert Reached(c, [Start(0)], Start(0));
    var s;
    run, s := ListAndStore(c, [Start(0)], Start(0), 0, Query(scope, None, limit));
    e := s.pages[KeyOf(Query(scope, None, limit), 0)];
    run := LookAndFind(c, run, s, 1, Query(scope, Some(""), limit));
  }

  /**
   A change that nobody announces stays unseen while the page lives: a job that its
   publisher has moved to queued is still listed as pending.
   */
  lemma UnannouncedChangesStayUnseen(list: (map<nat, JobPublic>, Query) -> Page, job: JobPublic, limit: nat)
      returns (c: Config, run: seq<State>, e: Entry)
    requires job.status == Pending
    ensures c.list == list && IsRun(c, run) && Hit(run[|run| - 1], 1, e)
    ensures e.query == Query(Some(job.owner), None, limit) && e.page == list(map[job.id := job], e.query)
    ensures run[|run| - 1].sessions[1].look.rows == map[job.id := job.(status := Queued)]
  {
    c := Config(30, list);
    var q, s0, queued := Query(Some(job.owner), None, limit), Start(0), job.(status := Queued);
    assert Reached(c, [s0], s0);
    run := Extend(c, [s0], s0, Change(job));
    var s1 := Apply(c, s0, Change(job));
    var s2;
    assert Visible(s1.table, q.scope) == map[job.id := job];
    run, s2 := ListAndStore(c, run, s1, 0, q);
    e := s2.pages[KeyOf(q, 0)];
    run := Extend(c, run, s2, Change(queued));
    var s3 := Apply(c, s2, Change(queued));
    assert Visible(s3.table, q.scope) == map[job.id := queued];
    run := LookAndFind(c, run, s3, 1, q);
    HitsAreListings(c, run, |run| - 1, 1, e);
  }

  /**
   The condition on the version key is needed.  When the key expires between the look
   of the one who stores a page and the invalidation, the version starts again from the
   same number, and the page is returned after the invalidation.
   */
  lemma ExpiredVersionsBringAPageBack(list: (map<nat, JobPublic>, Query) -> Page, q: Query)
      returns (c: Config, run: seq<State>, v: nat, k: CacheKey)
    requires q.scope == Some(1)
    ensures c.list == list && IsRun(c, run) && v + 1 < |run| && Invalidates(c, run, v, 1)
    ensures k in run[v].pages && 1 !in run[v + 1].sessions && Hit(run[|run| - 1], 1, run[v].pages[k])
  {
    c, k := Config(30, list), KeyOf(q, 1);
    var s0 := Start(0);
    assert Reached(c, [s0], s0);
    run := Extend(c, [s0], s0, Invalidate(1));
    var s1 := Apply(c, s0, Invalidate(1));
    run := Extend(c, run, s1, Tick(VERSION_TTL_SECONDS - 1));
    var s2 := Apply(c, s1, Tick(VERSION_TTL_SECONDS - 1));
    assert Current(s2, Some(1)) == Seen(0, 1);
    var s3;
    run, s3 := ListAndStore(c, run, s2, 0, q);
    run := Extend(c, run, s3, Tick(VERSION_TTL_SECONDS));
    var s4 := Apply(c, s3, Tick(VERSION_TTL_SECONDS));
    v := |run| - 1;
    run := Extend(c, run, s4, Invalidate(1));
    var s5 := Apply(c, s4, Invalidate(1));
    assert Current(s5, Some(1)) == Seen(1, 1);
    assert Invalidates(c, run, v, 1);
    run := LookAndFind(c, run, s5, 1, q);
  }

  /* ----- The cache over its Redis keys ----- */

  // The step is taken by client `a`.
  predicate IsBy(st: Step, a: nat) {
    match st
    case Tick(_) => false
    case Change(_) => false
    case Invalidate(_) => false
    case _ => st.a == a
  }

  /** What a client relies on between its commands is what every step of the others grants. */
  lemma OthersLeaveTheSession(c: Config, s: State, st: Step, a: nat)
    requires Enabled(s, st) && !IsBy(st, a) && a in s.sessions
    ensures a in Apply(c, s, st).sessions && Apply(c, s, st).sessions[a] == s.sessions[a]
  {
  }

  // What a user may list: the rows of one owner, or those of all owners.
  ghost function RowsOf(table: map<nat, JobPublic>, scope: Scope): map<nat, JobPublic> {
    match scope
    case Some(owner) => map j | j in table && table[j].owner == owner :: table[j]
    case None => table
  }

  lemma SightIsOfTheRows(s: State, scope: Scope)
    ensures LookAt(s, scope).rows == RowsOf(s.table, scope)
  {
  }

  class JobListCache {
    const config: Config
    const calm: bool        // no other client runs, and Redis answers
    var state: State
    ghost var run: seq<State>

    ghost predicate Valid()
      reads this
    {
      Reached(config, run, state)
    }

    constructor (config: Config, calm: bool, now: int)
      ensures Valid() && this.config == config && this.calm == calm && state.now == now && state.pages == map[]
    {
      this.config, this.calm := config, calm;
      state, run := Start(now), [Start(now)];
    }

    method Do(st: Step)
      requires Valid() && Enabled(state, st)
      modifies this
      ensures Valid() && run == old(run) + [state] && state == Apply(config, old(state), st)
    {
      ghost var longer := Extend(config, run, state, st);
      state := Apply(config, state, st);
      run := longer;
    }

    // Time passes, and other clients and the database take any number of steps, in any order.
    method Yield(a: nat)
      requires Valid() && a in state.sessions
      modifies this
      ensures Valid() && old(run) <= run && a in state.sessions && state.sessions[a] == old(state.sessions[a])
      ensures calm ==> state == old(state)
    {
      hide IsRun, Enabled, Apply;
      if calm {
        return;
      }
      var steps: int := *;
      for i := 0 to Max(steps, 0)
        invariant Valid() && old(run) <= run && a in state.sessions && state.sessions[a] == old(state.sessions[a])
      {
        var st: Step := *;
        if Enabled(state, st) && !IsBy(st, a) {
          OthersLeaveTheSession(config, state, st, a);
          Do(st);
        }
      }
    }

    /** Looks at the version, then for the page; a Redis that does not answer is a miss. */
    method GetPage(a: nat, q: Query) returns (page: Option<Page>)
      requires Valid() && a !in state.sessions
      modifies this
      ensures Valid() && old(run) <= run
      ensures page.Some? ==>
                exists e :: Hit(state, a, e) && page.value == DecodePage(e.encoded) && state.sessions[a].query == q
      ensures calm ==>
                && state.pages == old(state.pages) && state.versions == old(state.versions)
                && state.now == old(state.now) && state.table == old(state.table)
                && state.sessions.Keys == old(state.sessions.Keys) + {a}
                && var stored := Lookup(old(state), KeyOf(q, Current(old(state), q.scope).value));
                   page == if stored.Some? then Some(DecodePage(stored.value.encoded)) else None
    {
      var refused := Refuses(calm);
      if refused {
        return None;
      }
      Do(BeginGet(a, q));
      Yield(a);
      refused := Refuses(calm);
      if refused {
        return None;
      }
      Do(Fetch(a));
      var hit := state.sessions[a].hit;
      page := if hit.Some? then Some(DecodePage(hit.value.encoded)) else None;
      assert hit.Some? ==> Hit(state, a, hit.value);
    }

    /** Looks at the version, then stores under it the page that was listed. */
    method SetPage(a: nat, q: Query)
      requires Valid() && a in state.sessions && state.sessions[a].Listed? && state.sessions[a].query == q
      modifies this
      ensures Valid() && old(run) <= run
      ensures calm ==>
                && state.versions == old(state.versions) && state.now == old(state.now) && a in old(state.sessions)
                && (config.cacheTtlSeconds > 0 ==>
                      var stored := Lookup(state, KeyOf(q, Current(state, q.scope).value));
                      && stored.Some?
                      && stored.value.encoded == EncodePage(config.list(old(state.sessions[a]).look.rows, q))
                      && stored.value.expiresAt == state.now + config.cacheTtlSeconds)
                && (forall k | k in old(state.pages) && k != KeyOf(q, Current(state, q.scope).value) ::
                      k in state.pages && state.pages[k] == old(state.pages)[k])
    {
      var refused := Refuses(calm);
      if refused {
        return;
      }
      Do(BeginSet(a));
      Yield(a);
      refused := Refuses(calm);
      if !refused {
        Do(Write(a));
      }
    }

    method NewClient() returns (b: nat)
      ensures b !in state.sessions
    {
      b := 0;
      ghost var rest := state.sessions.Keys;
      while b in state.sessions
        invariant forall k | k in state.sessions :: k < b || k in rest
        invariant forall k | k in rest :: b <= k
        decreases |rest|
      {
        rest := rest - {b};
        b := b + 1;
      }
    }

    // Lists the rows as they are at some moment, and stores the page.
    method ListAndSet(q: Query) returns (page: Page)
      requires Valid()
      modifies this
      ensures Valid() && old(run) <= run
      ensures exists i :: |old(run)| - 1 <= i < |run| && page == config.list(RowsOf(run[i].table, q.scope), q)
      ensures calm ==> page == config.list(RowsOf(old(state.table), q.scope), q)
      ensures calm && config.cacheTtlSeconds > 0 ==>
                var kept := Lookup(state, KeyOf(q, Current(old(state), q.scope).value));
                kept.Some? && kept.value.encoded == EncodePage(page)
    {
      ghost var i := |run| - 1;
      var b := NewClient();
      Do(ReadTable(b, q));
      page := config.list(state.sessions[b].look.rows, q);
      SightIsOfTheRows(run[i], q.scope);
      Yield(b);
      SetPage(b, q);
    }

    /**
     list_jobs: a hit of the cache, or after a miss the listing of the rows as they were
     at some moment of the call, which is then stored.
     */
    method ListJobs(a: nat, q: Query) returns (page: Page)
      requires Valid() && a !in state.sessions
      modifies this
      ensures Valid() && old(run) <= run
      ensures (exists e :: Hit(state, a, e) && page == DecodePage(e.encoded) && state.sessions[a].query == q)
              || exists i :: |old(run)| - 1 <= i < |run| && page == config.list(RowsOf(run[i].table, q.scope), q)
      ensures calm && config.cacheTtlSeconds > 0 ==>
                var key := KeyOf(q, Current(old(state), q.scope).value);
                var stored, kept := Lookup(old(state), key), Lookup(state, key);
                if stored.Some? then page == DecodePage(stored.value.encoded)
                else
                  && page == config.list(RowsOf(old(state.table), q.scope), q)
                  && kept.Some? && kept.value.encoded == EncodePage(page)
    {
      hide IsRun, Enabled, Apply, EncodePage, DecodePage;
      var cached := GetPage(a, q);
      if cached.Some? {
        return cached.value;
      }
      page := ListAndSet(q);
    }

    /** One transaction for both lists: the owner's, and the administrators'. */
    method InvalidateOwner(owner: nat) returns (done: bool)
      requires Valid()
      modifies this
      ensures Valid() && old(run) <= run
      ensures calm ==> done
      ensures done ==>
                && run == old(run) + [state] && Invalidates(config, run, |run| - 2, owner)
                && state.pages == old(state.pages) && state.sessions == old(state.sessions)
      ensures done ==> forall scope | scope in {Some(owner), None} ::
                && scope in state.versions && state.versions[scope].expiresAt == state.now + 604800
                && state.versions[scope].value ==
                   if scope in old(state.versions) && old(state.now) < old(state.versions)[scope].expiresAt
                   then old(state.versions)[scope].value + 1 else 1
      ensures done ==> forall scope | scope in old(state.versions) && scope !in {Some(owner), None} ::
                scope in state.versions && state.versions[scope] == old(state.versions)[scope]
      ensures !done ==> state == old(state)
    {
      var refused := Refuses(calm);
      done := !refused;
      if done {
        Do(Invalidate(owner));
      }
    }
  }
}
