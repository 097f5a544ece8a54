/** The tenant lookup cache: a five-minute cache of database answers, capped at
    a thousand entries, whose lookups interleave at the await between a miss and
    the insertion that follows it. */
module TenantCache {
  import opened Wrappers
  import opened CacheKeys
  import Sorting = StableSort

  const CACHE_TTL := 5 * 60 * 1000
  const MAX_TENANT_CACHE_ENTRIES := 1000

  datatype Tenant = Tenant(id: nat, data: nat)

  /** One entry of the insertion-ordered cache map. */
  datatype Entry = Entry(key: string, tenant: Tenant, timestamp: int)

  // ---------------------------------------------------- the map's operations

  ghost predicate DistinctKeys(es: seq<Entry>) {
    forall i, j :: 0 <= i < j < |es| ==> es[i].key != es[j].key
  }

  function Get(es: seq<Entry>, key: string): (r: Option<Entry>)
    ensures r.Some? ==> r.value in es && r.value.key == key
    ensures r.None? ==> forall e :: e in es ==> e.key != key
  {
    if es == [] then None else if es[0].key == key then Some(es[0]) else Get(es[1..], key)
  }

  function Set(es: seq<Entry>, e: Entry): (r: seq<Entry>)
    ensures forall x :: x in r ==> x == e || x in es
    ensures forall x :: x in es && x.key != e.key ==> x in r
    ensures e in r && |es| <= |r| <= |es| + 1
  {
    if es == [] then [e]
    else if es[0].key == e.key then [e] + es[1..]
    else [es[0]] + Set(es[1..], e)
  }

  function Delete(es: seq<Entry>, key: string): (r: seq<Entry>)
    ensures forall x :: x in r <==> x in es && x.key != key
  {
    if es == [] then []
    else if es[0].key == key then Delete(es[1..], key)
    else [es[0]] + Delete(es[1..], key)
  }

  /** What a lookup of the query finds in the cache. */
  function Hit(es: seq<Entry>, query: Json, now: int): Option<Tenant> {
    var cached := Get(es, BuildTenantCacheKey(query));
    if cached.Some? && IsFresh(cached.value, now) then Some(cached.value.tenant) else None
  }

  function DeleteAll(es: seq<Entry>, oldest: seq<Entry>): seq<Entry> {
    if oldest == [] then es else Delete(DeleteAll(es, oldest[..|oldest| - 1]), oldest[|oldest| - 1].key)
  }

  predicate IsFresh(e: Entry, now: int) {
    now - e.timestamp < CACHE_TTL
  }

  function Fresh(es: seq<Entry>, now: int): (r: seq<Entry>)
    ensures forall x :: x in r <==> x in es && IsFresh(x, now)
  {
    if es == [] then []
    else if IsFresh(es[|es| - 1], now) then Fresh(es[..|es| - 1], now) + [es[|es| - 1]]
    else Fresh(es[..|es| - 1], now)
  }

  function NotOf(es: seq<Entry>, tenantId: nat): (r: seq<Entry>)
    ensures forall x :: x in r <==> x in es && x.tenant.id != tenantId
  {
    if es == [] then []
    else if es[|es| - 1].tenant.id != tenantId then NotOf(es[..|es| - 1], tenantId) + [es[|es| - 1]]
    else NotOf(es[..|es| - 1], tenantId)
  }

  function Timestamp(e: Entry): int {
    e.timestamp
  }

  /** What pruning leaves: no expired entry, and of the others the newest. */
  function Pruned(es: seq<Entry>, now: int): seq<Entry> {
    var live := Fresh(es, now);
    if |live| <= MAX_TENANT_CACHE_ENTRIES then live
    else DeleteAll(live, Sorting.SortBy(live, Timestamp)[..|live| - MAX_TENANT_CACHE_ENTRIES])
  }

  // ------------------------------------------------------------ map lemmas

  lemma DistinctTail(es: seq<Entry>)
    requires DistinctKeys(es) && es != []
    ensures DistinctKeys(es[1..]) && DistinctKeys(es[..|es| - 1])
    ensures forall e :: e in es[1..] ==> e.key != es[0].key
    ensures forall e :: e in es[..|es| - 1] ==> e.key != es[|es| - 1].key
  {
  }

  lemma {:induction false} SetIsDistinct(es: seq<Entry>, e: Entry)
    requires DistinctKeys(es)
    ensures DistinctKeys(Set(es, e))
  {
    if es != [] {
      DistinctTail(es);
      SetIsDistinct(es[1..], e);
    }
  }

  lemma {:induction false} DeleteAbsent(es: seq<Entry>, key: string)
    requires forall x :: x in es ==> x.key != key
    ensures Delete(es, key) == es
  {
    if es != [] {
      assert es[0] in es;
      DeleteAbsent(es[1..], key);
    }
  }

  lemma {:induction false} DeleteBetween(front: seq<Entry>, e: Entry, back: seq<Entry>)
    requires forall x :: x in front || x in back ==> x.key != e.key
    ensures Delete(front + ([e] + back), e.key) == front + back
  {
    if front == [] {
      assert front + ([e] + back) == [e] + back;
      assert ([e] + back)[1..] == back;
      DeleteAbsent(back, e.key);
    } else {
      var rest := front[1..] + ([e] + back);
      assert front[0] in front;
      assert front + ([e] + back) == [front[0]] + rest;
      assert ([front[0]] + rest)[1..] == rest;
      DeleteBetween(front[1..], e, back);
      assert [front[0]] + (front[1..] + back) == front + back;
    }
  }

  lemma DeleteMiddle(front: seq<Entry>, e: Entry, back: seq<Entry>)
    requires DistinctKeys(front + [e] + back)
    ensures Delete(front + [e] + back, e.key) == front + back
  {
    var all := front + [e] + back;
    assert all[|front|] == e;
    forall x | x in front ensures x.key != e.key {
      var i :| 0 <= i < |front| && front[i] == x;
      assert all[i] == x;
    }
    forall x | x in back ensures x.key != e.key {
      var i :| 0 <= i < |back| && back[i] == x;
      assert all[|front| + 1 + i] == x;
    }
    assert all == front + ([e] + back);
    DeleteBetween(front, e, back);
  }

  lemma CutIsDistinct(front: seq<Entry>, e: Entry, back: seq<Entry>)
    requires DistinctKeys(front + [e] + back)
    ensures DistinctKeys(front + back)
  {
    var all, rest := front + [e] + back, front + back;
    forall j, k | 0 <= j < k < |rest| ensures rest[j].key != rest[k].key {
      var j', k' := if j < |front| then j else j + 1, if k < |front| then k else k + 1;
      assert rest[j] == all[j'] && rest[k] == all[k'];
    }
  }

  /** Deleting the entry an iteration has reached. */
  lemma DropHere(listed: seq<Entry>, i: nat, front: seq<Entry>)
    requires i < |listed| && DistinctKeys(front + listed[i..])
    ensures Delete(front + listed[i..], listed[i].key) == front + listed[i + 1..]
    ensures DistinctKeys(front + listed[i + 1..])
  {
    assert front + listed[i..] == front + [listed[i]] + listed[i + 1..];
    DeleteMiddle(front, listed[i], listed[i + 1..]);
    CutIsDistinct(front, listed[i], listed[i + 1..]);
  }

  lemma FreshGrows(listed: seq<Entry>, i: nat, now: int)
    requires i < |listed|
    ensures Fresh(listed[..i + 1], now) + listed[i + 1..] ==
            Fresh(listed[..i], now) + if IsFresh(listed[i], now) then listed[i..] else listed[i + 1..]
  {
    assert listed[..i + 1][..i] == listed[..i];
    assert listed[i..] == [listed[i]] + listed[i + 1..];
  }

  lemma NotOfGrows(listed: seq<Entry>, i: nat, tenantId: nat)
    requires i < |listed|
    ensures NotOf(listed[..i + 1], tenantId) + listed[i + 1..] ==
            NotOf(listed[..i], tenantId) + if listed[i].tenant.id != tenantId then listed[i..] else listed[i + 1..]
  {
    assert listed[..i + 1][..i] == listed[..i];
    assert listed[i..] == [listed[i]] + listed[i + 1..];
  }

  lemma SameKeySameEntry(es: seq<Entry>, x: Entry, y: Entry)
    requires DistinctKeys(es) && x in es && y in es && x.key == y.key
    ensures x == y
  {
  }

  /** Keys being distinct, there is a hit exactly when some entry of the query's
      key is fresh, and it is that entry's tenant. */
  lemma HitIsExact(es: seq<Entry>, query: Json, now: int)
    requires DistinctKeys(es)
    ensures forall e :: e in es && e.key == BuildTenantCacheKey(query) ==>
              Hit(es, query, now) == if IsFresh(e, now) then Some(e.tenant) else None
    ensures Hit(es, query, now).Some? ==>
              exists e :: e in es && e.key == BuildTenantCacheKey(query) && IsFresh(e, now)
  {
  }

  lemma DeleteOne(es: seq<Entry>, e: Entry)
    requires DistinctKeys(es) && e in es
    ensures |Delete(es, e.key)| == |es| - 1 && DistinctKeys(Delete(es, e.key))
    ensures forall x :: x in Delete(es, e.key) <==> x in es && x != e
  {
    var i :| 0 <= i < |es| && es[i] == e;
    assert es == es[..i] + es[i..];
    DropHere(es, i, es[..i]);
    forall x | x in es && x.key == e.key ensures x == e {
      SameKeySameEntry(es, x, e);
    }
  }

  lemma {:induction false} DeleteAllWorks(es: seq<Entry>, oldest: seq<Entry>)
    requires DistinctKeys(es) && DistinctKeys(oldest)
    requires forall e :: e in oldest ==> e in es
    ensures |DeleteAll(es, oldest)| == |es| - |oldest| && DistinctKeys(DeleteAll(es, oldest))
    ensures forall x :: x in DeleteAll(es, oldest) <==> x in es && x !in oldest
  {
    if oldest != [] {
      var before, last := oldest[..|oldest| - 1], oldest[|oldest| - 1];
      DistinctTail(oldest);
      DeleteAllWorks(es, before);
      assert last in oldest && last !in before;
      DeleteOne(DeleteAll(es, before), last);
      assert oldest == before + [last];
    }
  }

  lemma {:induction false} FreshIsDistinct(es: seq<Entry>, now: int)
    requires DistinctKeys(es)
    ensures DistinctKeys(Fresh(es, now)) && |Fresh(es, now)| <= |es|
  {
    if es != [] {
      DistinctTail(es);
      FreshIsDistinct(es[..|es| - 1], now);
    }
  }

  lemma {:induction false} InsertIsDistinct(e: Entry, es: seq<Entry>)
    requires DistinctKeys(es) && forall x :: x in es ==> x.key != e.key
    ensures DistinctKeys(Sorting.Insert(e, es, Timestamp))
    ensures forall x :: x in Sorting.Insert(e, es, Timestamp) <==> x == e || x in es
  {
    if es != [] {
      DistinctTail(es);
      assert es == [es[0]] + es[1..];
      InsertIsDistinct(e, es[1..]);
    }
  }

  lemma {:induction false} SortIsDistinct(es: seq<Entry>)
    requires DistinctKeys(es)
    ensures DistinctKeys(Sorting.SortBy(es, Timestamp))
    ensures forall x :: x in Sorting.SortBy(es, Timestamp) <==> x in es
  {
    if es != [] {
      DistinctTail(es);
      SortIsDistinct(es[1..]);
      assert es == [es[0]] + es[1..];
      InsertIsDistinct(es[0], Sorting.SortBy(es[1..], Timestamp));
    }
  }

  lemma DroppingOldestKeepsNewest(live: seq<Entry>, n: nat)
    requires DistinctKeys(live) && n <= |live|
    ensures var r := DeleteAll(live, Sorting.SortBy(live, Timestamp)[..n]);
            && DistinctKeys(r) && |r| == |live| - n
            && (forall e :: e in r ==> e in live)
            && (forall kept, gone :: kept in r && gone in live && gone !in r ==> gone.timestamp <= kept.timestamp)
  {
    var sorted := Sorting.SortBy(live, Timestamp);
    SortIsDistinct(live);
    Sorting.SortBySorts(live, Timestamp);
    DeleteAllWorks(live, sorted[..n]);
    var r := DeleteAll(live, sorted[..n]);
    forall kept, gone | kept in r && gone in live && gone !in r
      ensures gone.timestamp <= kept.timestamp
    {
      OldestAreOlder(sorted, n, kept, gone);
    }
  }

  lemma OldestAreOlder(sorted: seq<Entry>, n: nat, kept: Entry, gone: Entry)
    requires n <= |sorted| && Sorting.Ascending(sorted, Timestamp)
    requires gone in sorted[..n] && kept in sorted && kept !in sorted[..n]
    ensures gone.timestamp <= kept.timestamp
  {
  }

  /** Pruning removes every expired entry first, and of the rest only as many of
      the oldest as exceed the cap: every survivor is at least as new as every
      unexpired entry that had to go. */
  lemma {:induction false} PruneKeepsTheNewest(es: seq<Entry>, now: int)
    requires DistinctKeys(es)
    ensures var r, live := Pruned(es, now), Fresh(es, now);
            && DistinctKeys(r)
            && |r| == (if |live| <= 1000 then |live| else 1000)
            && (forall e :: e in r ==> e in es && now - e.timestamp < 300000)
            && (forall e :: e in live <==> e in es && now - e.timestamp < 300000)
            && (|live| <= 1000 ==> r == live)
            && (forall kept, gone :: kept in r && gone in es && now - gone.timestamp < 300000 && gone !in r ==>
                  gone.timestamp <= kept.timestamp)
  {
    var live := Fresh(es, now);
    FreshIsDistinct(es, now);
    if |live| > MAX_TENANT_CACHE_ENTRIES {
      DroppingOldestKeepsNewest(live, |live| - MAX_TENANT_CACHE_ENTRIES);
    }
  }

  // ------------------------------------------------------ the cache in memory

  /** The module-level map, as the lookup, pruning and clearing functions mutate
      it. A lookup runs in two parts, before and after its await. */
  class Cache {
    var entries: seq<Entry>

    ghost predicate Valid()
      reads this
    {
      DistinctKeys(entries)
    }

    constructor ()
      ensures Valid() && entries == []
    {
      entries := [];
    }

    method PruneTenantCache(now: int)
      requires Valid()
      modifies this
      ensures Valid() && entries == Pruned(old(entries), now)
    {
      PruneKeepsTheNewest(entries, now);
      DropExpired(now);
      if |entries| <= MAX_TENANT_CACHE_ENTRIES {
        return;
      }
      DropOldest(|entries| - MAX_TENANT_CACHE_ENTRIES);
    }

    method DropExpired(now: int)
      requires Valid()
      modifies this
      ensures Valid() && entries == Fresh(old(entries), now)
    {
      var listed := entries;
      for i := 0 to |listed|
        invariant entries == Fresh(listed[..i], now) + listed[i..]
        invariant DistinctKeys(entries)
      {
        FreshGrows(listed, i, now);
        if now - listed[i].timestamp >= CACHE_TTL {
          DropHere(listed, i, Fresh(listed[..i], now));
          entries := Delete(entries, listed[i].key);
        }
      }
      assert listed[..|listed|] == listed;
    }

    method DropOldest(n: nat)
      requires Valid() && n <= |entries|
      modifies this
      ensures entries == DeleteAll(old(entries), Sorting.SortBy(old(entries), Timestamp)[..n])
    {
      var listed := entries;
      var toDelete := Sorting.SortBy(entries, Timestamp)[..n];
      for j := 0 to |toDelete|
        invariant entries == DeleteAll(listed, toDelete[..j])
      {
        assert toDelete[..j + 1][..j] == toDelete[..j];
        entries := Delete(entries, toDelete[j].key);
      }
      assert toDelete[..|toDelete|] == toDelete;
    }

    /** Up to the await: a fresh cached answer, exactly when there is one. */
    method Probe(query: Json, now: int) returns (hit: Option<Tenant>)
      requires Valid()
      ensures hit == Hit(entries, query, now)
      ensures hit.None? <==> forall e :: e in entries && e.key == BuildTenantCacheKey(query) ==> !IsFresh(e, now)
      ensures hit.Some? ==> exists e :: e in entries && e.key == BuildTenantCacheKey(query) && hit == Some(e.tenant)
    {
      HitIsExact(entries, query, now);
      var cached := Get(entries, BuildTenantCacheKey(query));
      if cached.Some? && now - cached.value.timestamp < CACHE_TTL {
        return Some(cached.value.tenant);
      }
      hit := None;
    }

    /** After the await: remember the database's answer, stamped with the time
        the lookup began. */
    method Remember(query: Json, tenant: Option<Tenant>, now: int)
      requires Valid()
      modifies this
      ensures Valid()
      ensures entries == Inserted(old(entries), query, tenant, now)
    {
      if tenant.Some? {
        SetIsDistinct(entries, Entry(BuildTenantCacheKey(query), tenant.value, now));
        entries := Set(entries, Entry(BuildTenantCacheKey(query), tenant.value, now));
        PruneTenantCache(now);
      }
    }

    method ClearTenantCache(tenantId: Option<nat>)
      requires Valid()
      modifies this
      ensures Valid() && entries == Cleared(old(entries), tenantId)
    {
      if tenantId.None? {
        entries := [];
        return;
      }
      var listed := entries;
      for i := 0 to |listed|
        invariant entries == NotOf(listed[..i], tenantId.value) + listed[i..]
        invariant DistinctKeys(entries)
      {
        NotOfGrows(listed, i, tenantId.value);
        if listed[i].tenant.id == tenantId.value {
          DropHere(listed, i, NotOf(listed[..i], tenantId.value));
          entries := Delete(entries, listed[i].key);
        }
      }
      assert listed[..|listed|] == listed;
    }
  }

  function Inserted(es: seq<Entry>, query: Json, tenant: Option<Tenant>, now: int): seq<Entry> {
    if tenant.None? then es else Pruned(Set(es, Entry(BuildTenantCacheKey(query), tenant.value, now)), now)
  }

  /** Clearing one tenant drops exactly its entries. */
  lemma ClearingOneSparesOthers(es: seq<Entry>, tenantId: nat, e: Entry)
    ensures e in Cleared(es, Some(tenantId)) <==> e in es && e.tenant.id != tenantId
  {
  }

  /** Storing an answer keeps every other fresh entry while there is room. */
  lemma StoringKeepsOthers(es: seq<Entry>, query: Json, tenant: Tenant, now: int, e: Entry)
    requires DistinctKeys(es) && |es| < MAX_TENANT_CACHE_ENTRIES
    requires e in es && e.key != BuildTenantCacheKey(query) && now - e.timestamp < 300000
    ensures e in Inserted(es, query, Some(tenant), now)
  {
    var made := Entry(BuildTenantCacheKey(query), tenant, now);
    SetIsDistinct(es, made);
    FreshIsDistinct(Set(es, made), now);
  }

  function Cleared(es: seq<Entry>, tenantId: Option<nat>): seq<Entry> {
    if tenantId.None? then [] else NotOf(es, tenantId.value)
  }
}
