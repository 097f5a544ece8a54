/** Interleaved tenant lookups against a database that changes at any time. A
    lookup starts (and may be answered from the cache), is answered by the
    database, and finishes by storing the answer; other lookups, clears and
    database writes come in between. */
module TenantLookups {
  import opened Wrappers
  import opened CacheKeys
  import opened TenantCache

  /** The database as `findOne` sees it: the tenant each query selects, queries
      being the same when they differ only in the order of object keys. */
  type Database = map<Value, Tenant>

  /** The contents in force from one moment until the next version's. */
  datatype Version = Version(since: int, db: Database)

  datatype Lookup =
    | Waiting(query: Json, started: int)
    | Answered(query: Json, started: int, tenant: Option<Tenant>, version: nat, moment: int)

  /** A lookup's result as its caller saw it. */
  datatype Reply = Reply(query: Json, tenant: Tenant, started: int, at: int, fromCache: bool)

  /** Where a cached answer came from; recorded for the proofs only. */
  datatype Origin = Origin(query: Json, version: nat, moment: int)

  datatype State = State(
    now: int,
    history: seq<Version>,
    entries: seq<Entry>,
    lookups: map<nat, Lookup>,
    replies: seq<Reply>,
    origins: map<string, Origin>)

  datatype Action =
    | Tick(elapsed: nat)
    | WriteDatabase(db: Database)
    | Start(lookup: nat, query: Json)
    | AskDatabase(lookup: nat)
    | Finish(lookup: nat)
    | Clear(tenantId: Option<nat>)

  function Select(db: Database, query: Json): Option<Tenant> {
    if Meaning(query) in db then Some(db[Meaning(query)]) else None
  }

  function Next(s: State, a: Action): State
    requires s.history != []
    ensures Next(s, a).history != []
  {
    match a
    case Tick(elapsed) => s.(now := s.now + elapsed)
    case WriteDatabase(db) => s.(history := s.history + [Version(s.now, db)])
    case Start(l, query) =>
      var hit := Hit(s.entries, query, s.now);
      if hit.Some? then
        s.(replies := s.replies + [Reply(query, hit.value, s.now, s.now, true)],
           lookups := s.lookups - {l})
      else s.(lookups := s.lookups[l := Waiting(query, s.now)])
    case AskDatabase(l) =>
      if l !in s.lookups || !s.lookups[l].Waiting? then s
      else
        var w := s.lookups[l];
        var current := |s.history| - 1;
        var found := Select(s.history[current].db, w.query);
        s.(lookups := s.lookups[l := Answered(w.query, w.started, found, current, s.now)])
    case Finish(l) =>
      if l !in s.lookups || !s.lookups[l].Answered? then s
      else
        var w := s.lookups[l];
        var rest := s.(lookups := s.lookups - {l});
        if w.tenant.None? then rest
        else rest.(entries := Inserted(s.entries, w.query, w.tenant, w.started),
                   origins := s.origins[BuildTenantCacheKey(w.query) := Origin(w.query, w.version, w.moment)],
                   replies := s.replies + [Reply(w.query, w.tenant.value, w.started, s.now, false)])
    case Clear(tenantId) => s.(entries := Cleared(s.entries, tenantId))
  }

  function Init(db: Database, now: int): State {
    State(now, [Version(now, db)], [], map[], [], map[])
  }

  function Exec(s: State, actions: seq<Action>): State
    requires s.history != []
    ensures Exec(s, actions).history != []
    decreases |actions|
  {
    if actions == [] then s else Exec(Next(s, actions[0]), actions[1..])
  }

  // ----------------------------------------------- what counts as an answer

  /** Version i was the database's contents at moment m. */
  ghost predicate InForce(history: seq<Version>, i: int, m: int) {
    && 0 <= i < |history|
    && history[i].since <= m
    && (i + 1 < |history| ==> m <= history[i + 1].since)
  }

  /** At moment m, from version `floor` on, the database answered the query so. */
  ghost predicate DatabaseSaid(history: seq<Version>, floor: int, query: Json, tenant: Tenant, m: int) {
    exists i :: floor <= i && InForce(history, i, m) && Select(history[i].db, query) == Some(tenant)
  }

  lemma InForceStays(history: seq<Version>, v: Version, i: int, m: int)
    requires InForce(history, i, m) && m <= v.since
    ensures InForce(history + [v], i, m) && (history + [v])[i] == history[i]
  {
  }

  lemma SaidStays(history: seq<Version>, v: Version, floor: int, query: Json, tenant: Tenant, m: int)
    requires DatabaseSaid(history, floor, query, tenant, m) && m <= v.since
    ensures DatabaseSaid(history + [v], floor, query, tenant, m)
  {
    var i :| floor <= i && InForce(history, i, m) && Select(history[i].db, query) == Some(tenant);
    InForceStays(history, v, i, m);
  }

  // ------------------------------------------------------- bounded staleness

  ghost predicate EntryInv(s: State, e: Entry) {
    && e.key in s.origins
    && var o := s.origins[e.key];
       && WellFormed(o.query) && Plain(o.query) && e.key == BuildTenantCacheKey(o.query)
       && e.timestamp <= o.moment <= s.now
       && InForce(s.history, o.version, o.moment)
       && Select(s.history[o.version].db, o.query) == Some(e.tenant)
  }

  ghost predicate LookupInv(s: State, l: Lookup) {
    && WellFormed(l.query) && Plain(l.query)
    && l.started <= s.now
    && (l.Answered? ==>
          && l.started <= l.moment <= s.now
          && InForce(s.history, l.version, l.moment)
          && Select(s.history[l.version].db, l.query) == l.tenant)
  }

  /** The moment falls within the call, or for an answer from the cache within
      the five minutes before it. */
  predicate InTime(r: Reply, m: int) {
    m <= r.at && if r.fromCache then r.at == r.started && r.at - 300000 < m else r.started <= m
  }

  ghost predicate ReplyInv(history: seq<Version>, r: Reply) {
    exists m :: InTime(r, m) && DatabaseSaid(history, 0, r.query, r.tenant, m)
  }

  ghost predicate Inv(s: State) {
    && s.history != []
    && s.history[|s.history| - 1].since <= s.now
    && DistinctKeys(s.entries) && |s.entries| <= MAX_TENANT_CACHE_ENTRIES
    && (forall e :: e in s.entries ==> EntryInv(s, e))
    && (forall l :: l in s.lookups ==> LookupInv(s, s.lookups[l]))
    && (forall k :: 0 <= k < |s.replies| ==> s.replies[k].at <= s.now && ReplyInv(s.history, s.replies[k]))
  }

  lemma TickKeepsInv(s: State, elapsed: nat)
    requires Inv(s)
    ensures Inv(Next(s, Tick(elapsed)))
  {
  }

  lemma WriteKeepsInv(s: State, db: Database)
    requires Inv(s)
    ensures Inv(Next(s, WriteDatabase(db)))
  {
    var v := Version(s.now, db);
    var after := Next(s, WriteDatabase(db));
    forall e | e in after.entries ensures EntryInv(after, e) {
      assert EntryInv(s, e);
      InForceStays(s.history, v, s.origins[e.key].version, s.origins[e.key].moment);
    }
    forall l | l in after.lookups ensures LookupInv(after, after.lookups[l]) {
      assert LookupInv(s, s.lookups[l]);
      if s.lookups[l].Answered? {
        InForceStays(s.history, v, s.lookups[l].version, s.lookups[l].moment);
      }
    }
    forall k | 0 <= k < |after.replies| ensures ReplyInv(after.history, after.replies[k]) {
      var r := s.replies[k];
      assert ReplyInv(s.history, r);
      var m :| InTime(r, m) && DatabaseSaid(s.history, 0, r.query, r.tenant, m);
      SaidStays(s.history, v, 0, r.query, r.tenant, m);
    }
  }

  /** A reply added at the end, with the version and moment behind it. */
  lemma ReplyKeepsInv(s: State, r: Reply, i: int, m: int)
    requires Inv(s)
    requires InForce(s.history, i, m) && Select(s.history[i].db, r.query) == Some(r.tenant)
    requires InTime(r, m) && r.at == s.now
    ensures Inv(s.(replies := s.replies + [r]))
  {
  }

  lemma LookupsKeepInv(s: State, lookups: map<nat, Lookup>)
    requires Inv(s) && forall l :: l in lookups ==> LookupInv(s, lookups[l])
    ensures Inv(s.(lookups := lookups))
  {
  }

  lemma StartKeepsInv(s: State, l: nat, query: Json)
    requires Inv(s) && WellFormed(query) && Plain(query)
    ensures Inv(Next(s, Start(l, query)))
  {
    var cached := Get(s.entries, BuildTenantCacheKey(query));
    if cached.Some? && IsFresh(cached.value, s.now) {
      var e := cached.value;
      assert EntryInv(s, e);
      var o := s.origins[e.key];
      KeyIsCollisionFree(query, o.query);
      var rest := s.(lookups := s.lookups - {l});
      LookupsKeepInv(s, s.lookups - {l});
      ReplyKeepsInv(rest, Reply(query, e.tenant, s.now, s.now, true), o.version, o.moment);
    } else {
      LookupsKeepInv(s, s.lookups[l := Waiting(query, s.now)]);
    }
  }

  lemma AskKeepsInv(s: State, l: nat)
    requires Inv(s)
    ensures Inv(Next(s, AskDatabase(l)))
  {
  }

  lemma {:induction false} InsertedWorks(es: seq<Entry>, query: Json, tenant: Tenant, now: int)
    requires DistinctKeys(es) && |es| <= MAX_TENANT_CACHE_ENTRIES
    ensures var r := Inserted(es, query, Some(tenant), now);
            && DistinctKeys(r) && |r| <= MAX_TENANT_CACHE_ENTRIES
            && (forall e :: e in r ==>
                  e == Entry(BuildTenantCacheKey(query), tenant, now)
                      || (e in es && e.key != BuildTenantCacheKey(query)))
  {
    var made := Entry(BuildTenantCacheKey(query), tenant, now);
    SetIsDistinct(es, made);
    PruneKeepsTheNewest(Set(es, made), now);
    forall e | e in Set(es, made) && e.key == made.key ensures e == made {
      SameKeySameEntry(Set(es, made), e, made);
    }
  }

  /** The state once an answered lookup's tenant is in the cache, before its
      reply. */
  function Stored(s: State, w: Lookup): State
    requires w.Answered?
  {
    s.(entries := Inserted(s.entries, w.query, w.tenant, w.started),
       origins := s.origins[BuildTenantCacheKey(w.query) := Origin(w.query, w.version, w.moment)])
  }

  lemma StoringKeepsInv(s: State, w: Lookup)
    requires Inv(s) && w.Answered? && w.tenant.Some? && LookupInv(s, w)
    ensures Inv(Stored(s, w))
  {
    var after := Stored(s, w);
    InsertedWorks(s.entries, w.query, w.tenant.value, w.started);
    forall e | e in after.entries ensures EntryInv(after, e) {
      if e.key == BuildTenantCacheKey(w.query) {
        assert after.origins[e.key] == Origin(w.query, w.version, w.moment);
      } else {
        assert EntryInv(s, e);
        assert after.origins[e.key] == s.origins[e.key];
      }
    }
    forall l | l in after.lookups ensures LookupInv(after, after.lookups[l]) {
      assert LookupInv(s, s.lookups[l]);
    }
  }

  lemma FinishKeepsInv(s: State, l: nat)
    requires Inv(s)
    ensures Inv(Next(s, Finish(l)))
  {
    if l in s.lookups && s.lookups[l].Answered? {
      var w := s.lookups[l];
      assert LookupInv(s, w);
      var rest := s.(lookups := s.lookups - {l});
      LookupsKeepInv(s, s.lookups - {l});
      if w.tenant.Some? {
        StoringKeepsInv(rest, w);
        ReplyKeepsInv(Stored(rest, w), Reply(w.query, w.tenant.value, w.started, s.now, false), w.version, w.moment);
      }
    }
  }

  lemma {:induction false} NotOfIsSmaller(es: seq<Entry>, tenantId: nat)
    requires DistinctKeys(es)
    ensures DistinctKeys(NotOf(es, tenantId)) && |NotOf(es, tenantId)| <= |es|
  {
    if es != [] {
      DistinctTail(es);
      NotOfIsSmaller(es[..|es| - 1], tenantId);
    }
  }

  lemma ClearKeepsInv(s: State, tenantId: Option<nat>)
    requires Inv(s)
    ensures Inv(Next(s, Clear(tenantId)))
  {
    if tenantId.Some? {
      NotOfIsSmaller(s.entries, tenantId.value);
    }
    var after := Next(s, Clear(tenantId));
    forall e | e in after.entries ensures EntryInv(after, e) {
      assert EntryInv(s, e);
    }
    forall l | l in after.lookups ensures LookupInv(after, after.lookups[l]) {
      assert LookupInv(s, s.lookups[l]);
    }
  }

  predicate Proper(a: Action) {
    a.Start? ==> WellFormed(a.query) && Plain(a.query)
  }

  lemma StepKeepsInv(s: State, a: Action)
    requires Inv(s) && Proper(a)
    ensures Inv(Next(s, a))
  {
    match a
    case Tick(elapsed) => TickKeepsInv(s, elapsed);
    case WriteDatabase(db) => WriteKeepsInv(s, db);
    case Start(l, query) => StartKeepsInv(s, l, query);
    case AskDatabase(l) => AskKeepsInv(s, l);
    case Finish(l) => FinishKeepsInv(s, l);
    case Clear(tenantId) => ClearKeepsInv(s, tenantId);
  }

  /** Every query is a JSON value with no `__proto__` member. */
  ghost predicate ProperQueries(actions: seq<Action>) {
    forall a :: a in actions ==> Proper(a)
  }

  lemma {:induction false} ExecKeepsInv(s: State, actions: seq<Action>)
    requires Inv(s) && ProperQueries(actions)
    ensures Inv(Exec(s, actions))
    decreases |actions|
  {
    if actions != [] {
      assert actions[0] in actions;
      StepKeepsInv(s, actions[0]);
      ExecKeepsInv(Next(s, actions[0]), actions[1..]);
    }
  }

  /** In every interleaving a tenant returned from the cache at time t was the
      database's answer to that query at a moment in (t - 5 min, t], and one
      loaded from the database was its answer at a moment during the call. */
  lemma StalenessIsBounded(db: Database, now: int, actions: seq<Action>, k: nat) returns (m: int)
    requires ProperQueries(actions)
    requires k < |Exec(Init(db, now), actions).replies|
    ensures var s := Exec(Init(db, now), actions);
            InTime(s.replies[k], m) && DatabaseSaid(s.history, 0, s.replies[k].query, s.replies[k].tenant, m)
  {
    ExecKeepsInv(Init(db, now), actions);
    var s := Exec(Init(db, now), actions);
    assert ReplyInv(s.history, s.replies[k]);
    m :| InTime(s.replies[k], m) && DatabaseSaid(s.history, 0, s.replies[k].query, s.replies[k].tenant, m);
  }

  /** Some moment in the five minutes before the reply at which the database
      gave this answer. */
  ghost predicate Recent(history: seq<Version>, r: Reply) {
    exists m :: r.at - 300000 < m <= r.at && DatabaseSaid(history, 0, r.query, r.tenant, m)
  }

  /** Whatever call takes this long, in whatever run, returns a recent answer. */
  ghost predicate CallsOfLengthAreRecent(wait: nat) {
    forall db, now, actions, k :: ProperQueries(actions) ==>
      var s := Exec(Init(db, now), actions);
      0 <= k < |s.replies| && s.replies[k].at - s.replies[k].started == wait ==> Recent(s.history, s.replies[k])
  }

  /** An answer less than five minutes old is guaranteed exactly to the calls
      that themselves take less than five minutes. */
  lemma RecentExactlyWhenPrompt(wait: nat)
    ensures CallsOfLengthAreRecent(wait) <==> wait < 300000
  {
    if wait < CACHE_TTL {
      forall db, now, actions, k | ProperQueries(actions)
        ensures var s := Exec(Init(db, now), actions);
                0 <= k < |s.replies| && s.replies[k].at - s.replies[k].started == wait ==>
                    Recent(s.history, s.replies[k])
      {
        var s := Exec(Init(db, now), actions);
        if 0 <= k < |s.replies| && s.replies[k].at - s.replies[k].started == wait {
          var m := StalenessIsBounded(db, now, actions, k);
        }
      }
    } else {
      var query, tenant := Obj(Member("slug", Str("salon"), NoMembers)), Tenant(1, 0);
      var actions := SlowCallIsStale(wait, query, tenant);
      var s := Exec(Init(map[Meaning(query) := tenant], 0), actions);
      assert !Recent(s.history, s.replies[0]);
    }
  }

  lemma SlowRun(wait: nat, query: Json, tenant: Tenant) returns (actions: seq<Action>)
    ensures actions == [Start(0, query), AskDatabase(0), WriteDatabase(map[]), Tick(wait), Finish(0)]
    ensures var s := Exec(Init(map[Meaning(query) := tenant], 0), actions);
            && s.replies == [Reply(query, tenant, 0, wait, false)]
            && s.history == [Version(0, map[Meaning(query) := tenant]), Version(0, map[])]
  {
    actions := [Start(0, query), AskDatabase(0), WriteDatabase(map[]), Tick(wait), Finish(0)];
    var s0 := Init(map[Meaning(query) := tenant], 0);
    var s2 := Next(Next(s0, actions[0]), actions[1]);
    assert s2.lookups[0] == Answered(query, 0, Some(tenant), 0, 0);
    FiveSteps(s0, actions);
  }

  /** Whatever is looked up, if its record is deleted while the call waits. */
  lemma SlowCallIsStale(wait: nat, query: Json, tenant: Tenant) returns (actions: seq<Action>)
    requires wait >= CACHE_TTL && WellFormed(query) && Plain(query)
    ensures ProperQueries(actions)
    ensures var s := Exec(Init(map[Meaning(query) := tenant], 0), actions);
            && |s.replies| == 1 && s.replies[0].at - s.replies[0].started == wait
            && !Recent(s.history, s.replies[0])
  {
    actions := SlowRun(wait, query, tenant);
  }

  lemma FiveSteps(s: State, a: seq<Action>)
    requires |a| == 5 && s.history != []
    ensures Exec(s, a) == Next(Next(Next(Next(Next(s, a[0]), a[1]), a[2]), a[3]), a[4])
  {
    assert a[1..][1..] == a[2..] && a[2..][1..] == a[3..] && a[3..][1..] == a[4..] && a[4..][1..] == [];
    var s1 := Next(s, a[0]);
    var s2 := Next(s1, a[1]);
    var s3 := Next(s2, a[2]);
    var s4 := Next(s3, a[3]);
    assert Exec(s, a) == Exec(s1, a[1..]) == Exec(s2, a[2..]) == Exec(s3, a[3..]) == Exec(s4, a[4..]);
    assert Exec(s4, a[4..]) == Exec(Next(s4, a[4]), []);
  }

  ghost predicate WithinCapacity(s: State) {
    s.history != [] && DistinctKeys(s.entries) && |s.entries| <= MAX_TENANT_CACHE_ENTRIES
  }

  lemma StepKeepsCapacity(s: State, a: Action)
    requires WithinCapacity(s)
    ensures WithinCapacity(Next(s, a))
  {
    if a.Finish? && a.lookup in s.lookups && s.lookups[a.lookup].Answered? && s.lookups[a.lookup].tenant.Some? {
      var w := s.lookups[a.lookup];
      InsertedWorks(s.entries, w.query, w.tenant.value, w.started);
    } else if a.Clear? && a.tenantId.Some? {
      NotOfIsSmaller(s.entries, a.tenantId.value);
    }
  }

  lemma {:induction false} ExecKeepsCapacity(s: State, actions: seq<Action>)
    requires WithinCapacity(s)
    ensures WithinCapacity(Exec(s, actions))
    decreases |actions|
  {
    if actions != [] {
      StepKeepsCapacity(s, actions[0]);
      ExecKeepsCapacity(Next(s, actions[0]), actions[1..]);
    }
  }

  /** In every interleaving, whatever is looked up. */
  lemma CapacityIsRespected(db: Database, now: int, actions: seq<Action>)
    ensures var s := Exec(Init(db, now), actions);
            |s.entries| <= 1000 && DistinctKeys(s.entries)
  {
    ExecKeepsCapacity(Init(db, now), actions);
  }

  /** While the cache has room, a stored answer is the one that the next lookup
      of the same query gets, until exactly five minutes after the call that
      loaded it began. */
  lemma {:induction false} StoredAnswerIsReused(s: State, l: nat, elapsed: nat, m: nat, query: Json)
    requires Inv(s) && |s.entries| < MAX_TENANT_CACHE_ENTRIES
    requires l in s.lookups && s.lookups[l].Answered? && s.lookups[l].tenant.Some?
    requires WellFormed(query) && Plain(query) && Meaning(query) == Meaning(s.lookups[l].query)
    ensures var w, later := s.lookups[l], Next(Next(s, Finish(l)), Tick(elapsed));
            Next(later, Start(m, query)).replies == later.replies +
              if later.now - w.started < 300000
              then [Reply(query, w.tenant.value, later.now, later.now, true)] else []
  {
    assert LookupInv(s, s.lookups[l]);
    KeyIsCollisionFree(query, s.lookups[l].query);
    FinishStores(s, l);
    var e := Entry(BuildTenantCacheKey(query), s.lookups[l].tenant.value, s.lookups[l].started);
    LookupReplies(Next(Next(s, Finish(l)), Tick(elapsed)), m, query, e);
  }

  lemma FinishStores(s: State, l: nat)
    requires DistinctKeys(s.entries) && |s.entries| < MAX_TENANT_CACHE_ENTRIES && s.history != []
    requires l in s.lookups && s.lookups[l].Answered? && s.lookups[l].tenant.Some?
    ensures var w, key := s.lookups[l], BuildTenantCacheKey(s.lookups[l].query);
            Get(Next(s, Finish(l)).entries, key) == Some(Entry(key, w.tenant.value, w.started))
  {
    var w := s.lookups[l];
    StoredIsFound(s.entries, w.query, w.tenant.value, w.started);
  }

  lemma LookupReplies(s: State, m: nat, query: Json, e: Entry)
    requires s.history != [] && Get(s.entries, BuildTenantCacheKey(query)) == Some(e)
    ensures Next(s, Start(m, query)).replies == s.replies +
              if s.now - e.timestamp < CACHE_TTL then [Reply(query, e.tenant, s.now, s.now, true)] else []
  {
  }

  lemma StoredIsFound(es: seq<Entry>, query: Json, tenant: Tenant, now: int)
    requires DistinctKeys(es) && |es| < MAX_TENANT_CACHE_ENTRIES
    ensures var key := BuildTenantCacheKey(query);
            Get(Inserted(es, query, Some(tenant), now), key) == Some(Entry(key, tenant, now))
  {
    var made := Entry(BuildTenantCacheKey(query), tenant, now);
    SetIsDistinct(es, made);
    FreshIsDistinct(Set(es, made), now);
    var kept := Fresh(Set(es, made), now);
    assert made in kept;
    SameKeySameEntry(kept, Get(kept, made.key).value, made);
  }

  // ------------------------------------------------------ answers since a clear

  /** The database gave this answer at or before `until`, from a version numbered
      `floor` or later. */
  ghost predicate SaidSince(history: seq<Version>, floor: int, query: Json, tenant: Tenant, until: int) {
    exists m :: m <= until && DatabaseSaid(history, floor, query, tenant, m)
  }

  /** About tenant `id`: everything cached, loaded, or replied from number
      `first` on, comes from version `floor` or later. */
  ghost predicate Current(s: State, id: nat, floor: int, first: nat) {
    && (forall e :: e in s.entries && e.tenant.id == id ==>
          e.key in s.origins && SaidSince(s.history, floor, s.origins[e.key].query, e.tenant, s.now))
    && (forall l :: l in s.lookups && Carries(s.lookups[l], id) ==>
          SaidSince(s.history, floor, s.lookups[l].query, s.lookups[l].tenant.value, s.now))
    && (forall k :: first <= k < |s.replies| && s.replies[k].tenant.id == id ==> CurrentReply(s, floor, k))
  }

  predicate Carries(l: Lookup, id: nat) {
    l.Answered? && l.tenant.Some? && l.tenant.value.id == id
  }

  ghost predicate CurrentReply(s: State, floor: int, k: nat)
    requires k < |s.replies|
  {
    SaidSince(s.history, floor, s.replies[k].query, s.replies[k].tenant, s.replies[k].at)
  }

  lemma SaidLater(history: seq<Version>, floor: int, query: Json, tenant: Tenant, until: int, v: Version, later: int)
    requires SaidSince(history, floor, query, tenant, until) && until <= later && until <= v.since
    ensures SaidSince(history, floor, query, tenant, later)
    ensures SaidSince(history + [v], floor, query, tenant, later)
  {
    var m :| m <= until && DatabaseSaid(history, floor, query, tenant, m);
    SaidStays(history, v, floor, query, tenant, m);
  }

  /** Time passing and the database changing. */
  lemma OutsideKeepsCurrent(s: State, a: Action, id: nat, floor: int, first: nat)
    requires Inv(s) && Current(s, id, floor, first) && (a.Tick? || a.WriteDatabase?)
    ensures Current(Next(s, a), id, floor, first)
  {
    var after := Next(s, a);
    var v := Version(s.now, if a.WriteDatabase? then a.db else map[]);
    forall e | e in after.entries && e.tenant.id == id
      ensures SaidSince(after.history, floor, after.origins[e.key].query, e.tenant, after.now)
    {
      SaidLater(s.history, floor, s.origins[e.key].query, e.tenant, s.now, v, after.now);
    }
    forall l | l in after.lookups && Carries(after.lookups[l], id)
      ensures SaidSince(after.history, floor, after.lookups[l].query, after.lookups[l].tenant.value, after.now)
    {
      SaidLater(s.history, floor, s.lookups[l].query, s.lookups[l].tenant.value, s.now, v, after.now);
    }
    forall k | first <= k < |after.replies| && after.replies[k].tenant.id == id ensures CurrentReply(after, floor, k) {
      assert CurrentReply(s, floor, k);
      var r := s.replies[k];
      SaidLater(s.history, floor, r.query, r.tenant, r.at, v, r.at);
    }
  }

  lemma ReplyKeepsCurrent(s: State, r: Reply, id: nat, floor: int, first: nat)
    requires Current(s, id, floor, first)
    requires r.tenant.id == id ==> SaidSince(s.history, floor, r.query, r.tenant, r.at)
    ensures Current(s.(replies := s.replies + [r]), id, floor, first)
  {
  }

  lemma SameMeaningSameAnswer(history: seq<Version>, floor: int, query: Json, same: Json, tenant: Tenant, until: int)
    requires SaidSince(history, floor, query, tenant, until) && Meaning(query) == Meaning(same)
    ensures SaidSince(history, floor, same, tenant, until)
  {
    var m :| m <= until && DatabaseSaid(history, floor, query, tenant, m);
    assert DatabaseSaid(history, floor, same, tenant, m);
  }

  lemma HitKeepsCurrent(s: State, e: Entry, query: Json, id: nat, floor: int, first: nat)
    requires Inv(s) && WellFormed(query) && Plain(query) && Current(s, id, floor, first)
    requires e in s.entries && e.key == BuildTenantCacheKey(query)
    ensures Current(s.(replies := s.replies + [Reply(query, e.tenant, s.now, s.now, true)]), id, floor, first)
  {
    assert EntryInv(s, e);
    var o := s.origins[e.key];
    KeyIsCollisionFree(query, o.query);
    if e.tenant.id == id {
      SameMeaningSameAnswer(s.history, floor, o.query, query, e.tenant, s.now);
    }
    ReplyKeepsCurrent(s, Reply(query, e.tenant, s.now, s.now, true), id, floor, first);
  }

  lemma LookupsKeepCurrent(s: State, lookups: map<nat, Lookup>, id: nat, floor: int, first: nat)
    requires Current(s, id, floor, first)
    requires forall l :: l in lookups && Carries(lookups[l], id) ==>
               SaidSince(s.history, floor, lookups[l].query, lookups[l].tenant.value, s.now)
    ensures Current(s.(lookups := lookups), id, floor, first)
  {
  }

  lemma StartKeepsCurrent(s: State, l: nat, query: Json, id: nat, floor: int, first: nat)
    requires Inv(s) && WellFormed(query) && Plain(query) && Current(s, id, floor, first)
    ensures Current(Next(s, Start(l, query)), id, floor, first)
  {
    var cached := Get(s.entries, BuildTenantCacheKey(query));
    if cached.Some? && IsFresh(cached.value, s.now) {
      LookupsKeepInv(s, s.lookups - {l});
      LookupsKeepCurrent(s, s.lookups - {l}, id, floor, first);
      HitKeepsCurrent(s.(lookups := s.lookups - {l}), cached.value, query, id, floor, first);
    } else {
      LookupsKeepCurrent(s, s.lookups[l := Waiting(query, s.now)], id, floor, first);
    }
  }

  lemma AskKeepsCurrent(s: State, l: nat, id: nat, floor: int, first: nat)
    requires Inv(s) && Current(s, id, floor, first) && floor < |s.history|
    ensures Current(Next(s, AskDatabase(l)), id, floor, first)
  {
    var after := Next(s, AskDatabase(l));
    if l in s.lookups && s.lookups[l].Waiting? {
      var w := after.lookups[l];
      if Carries(w, id) {
        assert InForce(s.history, w.version, s.now);
        assert DatabaseSaid(s.history, floor, w.query, w.tenant.value, s.now);
      }
      LookupsKeepCurrent(s, after.lookups, id, floor, first);
    }
  }

  lemma StoringKeepsCurrent(s: State, w: Lookup, id: nat, floor: int, first: nat)
    requires Inv(s) && w.Answered? && w.tenant.Some? && Current(s, id, floor, first)
    requires w.tenant.value.id == id ==> SaidSince(s.history, floor, w.query, w.tenant.value, s.now)
    ensures Current(Stored(s, w), id, floor, first)
  {
    var after := Stored(s, w);
    InsertedWorks(s.entries, w.query, w.tenant.value, w.started);
    forall k | first <= k < |s.replies| && s.replies[k].tenant.id == id ensures CurrentReply(after, floor, k) {
      assert CurrentReply(s, floor, k);
    }
  }

  lemma {:induction false} FinishKeepsCurrent(s: State, l: nat, id: nat, floor: int, first: nat)
    requires Inv(s) && Current(s, id, floor, first)
    ensures Current(Next(s, Finish(l)), id, floor, first)
  {
    if l in s.lookups && s.lookups[l].Answered? {
      var w := s.lookups[l];
      var rest := s.(lookups := s.lookups - {l});
      LookupsKeepInv(s, s.lookups - {l});
      LookupsKeepCurrent(s, s.lookups - {l}, id, floor, first);
      if w.tenant.Some? {
        assert Carries(w, w.tenant.value.id);
        StoringKeepsCurrent(rest, w, id, floor, first);
        ReplyKeepsCurrent(Stored(rest, w), Reply(w.query, w.tenant.value, w.started, s.now, false), id, floor, first);
      }
    }
  }

  lemma ClearKeepsCurrent(s: State, tenantId: Option<nat>, id: nat, floor: int, first: nat)
    requires s.history != [] && Current(s, id, floor, first)
    ensures Current(Next(s, Clear(tenantId)), id, floor, first)
  {
  }

  lemma StepKeepsCurrent(s: State, a: Action, id: nat, floor: int, first: nat)
    requires Inv(s) && Proper(a) && Current(s, id, floor, first) && floor < |s.history|
    ensures Current(Next(s, a), id, floor, first)
  {
    match a
    case Tick(_) => OutsideKeepsCurrent(s, a, id, floor, first);
    case WriteDatabase(_) => OutsideKeepsCurrent(s, a, id, floor, first);
    case Start(l, query) => StartKeepsCurrent(s, l, query, id, floor, first);
    case AskDatabase(l) => AskKeepsCurrent(s, l, id, floor, first);
    case Finish(l) => FinishKeepsCurrent(s, l, id, floor, first);
    case Clear(tenantId) => ClearKeepsCurrent(s, tenantId, id, floor, first);
  }

  lemma {:induction false} ExecKeepsCurrent(s: State, actions: seq<Action>, id: nat, floor: int, first: nat)
    requires Inv(s) && ProperQueries(actions) && Current(s, id, floor, first) && floor < |s.history|
    ensures Current(Exec(s, actions), id, floor, first)
    decreases |actions|
  {
    if actions != [] {
      assert actions[0] in actions;
      StepKeepsInv(s, actions[0]);
      StepKeepsCurrent(s, actions[0], id, floor, first);
      ExecKeepsCurrent(Next(s, actions[0]), actions[1..], id, floor, first);
    }
  }

  /** Whatever happens after the clear, every later answer naming the tenant
      comes from the database as it was at the clear or later. */
  ghost predicate ClearIsFinal(s: State, cleared: Option<nat>, id: nat)
    requires s.history != []
  {
    forall after, k :: ProperQueries(after) ==>
      var e := Exec(Next(s, Clear(cleared)), after);
      |s.replies| <= k < |e.replies| && e.replies[k].tenant.id == id ==> CurrentReply(e, |s.history| - 1, k)
  }

  /** A lookup in flight has loaded this tenant, and the database answers its
      query differently now. */
  ghost predicate StaleLoadInFlight(s: State, id: nat)
    requires s.history != []
  {
    exists l :: l in s.lookups && Carries(s.lookups[l], id)
      && Select(s.history[|s.history| - 1].db, s.lookups[l].query) != s.lookups[l].tenant
  }

  /** A clear of one tenant, or of everything, is final exactly when no stale
      load of that tenant is in flight; so always when no lookup is. */
  lemma {:induction false} ClearIsFinalExactlyWhen(db: Database, now: int, before: seq<Action>, cleared: Option<nat>,
                                                   id: nat)
    requires ProperQueries(before)
    requires cleared == None || cleared == Some(id)
    ensures var s := Exec(Init(db, now), before);
            && (ClearIsFinal(s, cleared, id) <==> !StaleLoadInFlight(s, id))
            && (s.lookups == map[] ==> ClearIsFinal(s, cleared, id))
  {
    ExecKeepsInv(Init(db, now), before);
    var s := Exec(Init(db, now), before);
    if StaleLoadInFlight(s, id) {
      StaleLoadDefeatsTheClear(s, cleared, id);
    } else {
      NoStaleLoadIsFinal(s, cleared, id);
    }
  }

  lemma NoStaleLoadIsFinal(s: State, cleared: Option<nat>, id: nat)
    requires Inv(s) && !StaleLoadInFlight(s, id)
    requires cleared == None || cleared == Some(id)
    ensures ClearIsFinal(s, cleared, id)
  {
    var start := Next(s, Clear(cleared));
    var floor := |s.history| - 1;
    forall l | l in s.lookups && Carries(s.lookups[l], id)
      ensures SaidSince(s.history, floor, s.lookups[l].query, s.lookups[l].tenant.value, s.now)
    {
      assert InForce(s.history, floor, s.now);
      assert DatabaseSaid(s.history, floor, s.lookups[l].query, s.lookups[l].tenant.value, s.now);
    }
    ClearKeepsInv(s, cleared);
    forall after, k | ProperQueries(after)
      ensures var e := Exec(start, after);
              |s.replies| <= k < |e.replies| && e.replies[k].tenant.id == id ==> CurrentReply(e, floor, k)
    {
      ExecKeepsCurrent(start, after, id, floor, |s.replies|);
    }
  }

  /** Finishing the stale load both replies with and stores its old answer. */
  lemma StaleLoadDefeatsTheClear(s: State, cleared: Option<nat>, id: nat)
    requires s.history != [] && StaleLoadInFlight(s, id)
    ensures !ClearIsFinal(s, cleared, id)
  {
    var l :| l in s.lookups && Carries(s.lookups[l], id)
      && Select(s.history[|s.history| - 1].db, s.lookups[l].query) != s.lookups[l].tenant;
    FinishReplies(s, cleared, l);
    var end := Exec(Next(s, Clear(cleared)), [Finish(l)]);
    var w := s.lookups[l];
    NeverSaid(s.history, w.query, w.tenant.value, s.now);
    assert ProperQueries([Finish(l)]);
    assert !CurrentReply(end, |s.history| - 1, |s.replies|);
  }

  lemma NeverSaid(history: seq<Version>, query: Json, tenant: Tenant, until: int)
    requires history != [] && Select(history[|history| - 1].db, query) != Some(tenant)
    ensures !SaidSince(history, |history| - 1, query, tenant, until)
  {
  }

  lemma FinishReplies(s: State, cleared: Option<nat>, l: nat)
    requires s.history != [] && l in s.lookups && s.lookups[l].Answered? && s.lookups[l].tenant.Some?
    ensures var end, w := Exec(Next(s, Clear(cleared)), [Finish(l)]), s.lookups[l];
            && end.history == s.history
            && end.replies == s.replies + [Reply(w.query, w.tenant.value, w.started, s.now, false)]
  {
  }

  /** Such a load is reachable, whatever is looked up: it begins before the write
      that the clear follows. */
  lemma StaleLoadsHappen(query: Json, tenant: Tenant)
    ensures StaleLoadInFlight(Exec(Init(map[Meaning(query) := tenant], 0),
                                   [Start(0, query), AskDatabase(0), WriteDatabase(map[])]), tenant.id)
  {
    var actions := [Start(0, query), AskDatabase(0), WriteDatabase(map[])];
    var s0 := Init(map[Meaning(query) := tenant], 0);
    var s1 := Next(s0, actions[0]);
    var s2 := Next(s1, actions[1]);
    var s3 := Next(s2, actions[2]);
    assert actions[1..][1..] == actions[2..] && actions[2..][1..] == [];
    assert Exec(s0, actions) == Exec(s1, actions[1..]) == Exec(s2, actions[2..]) == Exec(s3, []) == s3;
    assert s3.lookups[0] == Answered(query, 0, Some(tenant), 0, 0);
  }
}
