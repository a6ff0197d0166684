/**
 The cache of tenant information in front of the store (fusion_identity/grpc_servicer.py:127-169,
 fusion_identity/cache.py:104-141, fusion_identity/deps.py:234-245,
 fusion_identity/routes/quotas.py:48-61): entries per key hash that live 300 s, filled on a miss,
 dropped when the quota changes or the key is revoked.

 A fill reads the key, then the tenant and the quota, and then writes what it read; it waits in
 between, so these are four steps.
 */
module TenantCache {
  import opened Util
  import opened Servicer

  const ENTRY_TTL_MS := 300_000

  // ----- The store -----

  datatype Key = Key(tenant: string, revoked: bool)

  datatype Quota = Quota(concurrent: Option<int>, tpm: Option<int>, rpm: Option<int>, modules: Option<seq<string>>,
                         models: Option<seq<string>>)

  /** Keys by hash, whether each tenant is active, and quotas. */
  datatype Store = Store(keys: map<string, Key>, tenants: map<string, bool>, quotas: map<string, Quota>)

  function OrElse<T>(o: Option<T>, default: T): T {
    if o.Some? then o.value else default
  }

  /** A field that is present counts as it stands, a 0 included; only an absent one is defaulted. */
  function InfoOf(tenant: string, active: bool, quota: Option<Quota>): TenantInfo {
    var q := OrElse(quota, Quota(None, None, None, None, None));
    TenantInfo(tenant, active, OrElse(q.modules, []), OrElse(q.models, []),
               OrElse(q.concurrent, 2), OrElse(q.tpm, 50000), OrElse(q.rpm, 0))
  }

  /** The uncached answer. */
  function Lookup(st: Store, h: string): Option<TenantInfo> {
    if h !in st.keys || st.keys[h].revoked || st.keys[h].tenant !in st.tenants then None
    else
      var t := st.keys[h].tenant;
      Some(InfoOf(t, st.tenants[t], QuotaOf(st, t)))
  }

  /** The hashes of a tenant's unrevoked keys. */
  function KeysOf(st: Store, tenant: string): set<string> {
    set h | h in st.keys && st.keys[h].tenant == tenant && !st.keys[h].revoked
  }

  function Merged<T>(was: Option<T>, given: Option<T>): Option<T> {
    if given.Some? then given else was
  }

  function WithQuota(st: Store, tenant: string, f: Quota): Store
    requires tenant in st.quotas
  {
    var q := st.quotas[tenant];
    st.(quotas := st.quotas[tenant := Quota(Merged(q.concurrent, f.concurrent), Merged(q.tpm, f.tpm),
                                            Merged(q.rpm, f.rpm), Merged(q.modules, f.modules),
                                            Merged(q.models, f.models))])
  }

  function QuotaOf(st: Store, tenant: string): Option<Quota> {
    if tenant in st.quotas then Some(st.quotas[tenant]) else None
  }

  /** The administrator's update: a status, quota fields, or both. */
  function WithUpdate(st: Store, tenant: string, status: Option<bool>, f: Quota): Store
    requires tenant in st.tenants
  {
    var st1 := if status.Some? then st.(tenants := st.tenants[tenant := status.value]) else st;
    if tenant in st.quotas then WithQuota(st1, tenant, f) else st1
  }

  function WithoutKey(st: Store, h: string): Store
    requires h in st.keys
  {
    st.(keys := st.keys[h := st.keys[h].(revoked := true)])
  }

  // ----- The cache -----

  datatype Cached = Cached(info: TenantInfo, expireAt: nat)

  type Cache = map<string, Cached>

  /** What a cache read sees. */
  function Hit(c: Cache, h: string, ms: nat): Option<TenantInfo> {
    if h in c && c[h].expireAt > ms then Some(c[h].info) else None
  }

  /** What an authorization works with when its handler is not interrupted. */
  function Resolved(c: Cache, st: Store, h: string, ms: nat): Option<TenantInfo> {
    if Hit(c, h, ms).Some? then Hit(c, h, ms) else Lookup(st, h)
  }

  class AuthPlane {
    var cache: Cache
    var store: Store

    constructor (st: Store)
      ensures cache == map[] && store == st
    {
      cache, store := map[], st;
    }

    method Resolve(h: string, ms: nat) returns (info: Option<TenantInfo>)
      modifies `cache
      ensures info == Resolved(old(cache), store, h, ms)
      ensures cache == if Hit(old(cache), h, ms).None? && info.Some?
                       then old(cache)[h := Cached(info.value, ms + ENTRY_TTL_MS)]
                       else old(cache)
    {
      info := Hit(cache, h, ms);
      if info.None? {
        info := Lookup(store, h);
        if info.Some? {
          cache := cache[h := Cached(info.value, ms + ENTRY_TTL_MS)];
        }
      }
    }

    /** put_quota of the route: the store, then one delete per unrevoked key of the tenant. */
    method PutQuota(tenant: string, fields: Quota) returns (found: bool)
      modifies this
      ensures found == (tenant in old(store).quotas)
      ensures !found ==> store == old(store) && cache == old(cache)
      ensures found ==> store == WithQuota(old(store), tenant, fields) && cache == old(cache) - KeysOf(store, tenant)
    {
      if tenant !in store.quotas {
        return false;
      }
      store := WithQuota(store, tenant, fields);
      var todo := KeysOf(store, tenant);
      ghost var before := cache;
      while todo != {}
        invariant todo <= KeysOf(store, tenant) && store == WithQuota(old(store), tenant, fields)
        invariant forall h :: h in cache <==> h in before && (h in KeysOf(store, tenant) ==> h in todo)
        invariant forall h :: h in cache ==> cache[h] == before[h]
        decreases todo
      {
        var h :| h in todo;
        cache := cache - {h};
        todo := todo - {h};
      }
      assert cache == before - KeysOf(store, tenant);
      return true;
    }

    method RevokeKey(h: string)
      requires h in store.keys
      modifies this
      ensures store == WithoutKey(old(store), h) && cache == old(cache) - {h}
    {
      store := WithoutKey(store, h);
      cache := cache - {h};
    }

    /** admin_update_tenant: the status if one is given, then the quota fields; drops no key entry. */
    method UpdateTenant(tenant: string, status: Option<bool>, fields: Quota) returns (found: bool)
      modifies `store
      ensures found == (tenant in old(store).tenants)
      ensures store == if found then WithUpdate(old(store), tenant, status, fields) else old(store)
    {
      if tenant !in store.tenants {
        return false;
      }
      if status.Some? {
        store := store.(tenants := store.tenants[tenant := status.value]);
      }
      if tenant in store.quotas {
        store := WithQuota(store, tenant, fields);
      }
      return true;
    }
  }

  // ----- What the store answers and keeps -----

  /** The uncached answer, field by field: for an unrevoked key of an existing tenant, the quota's fields
      as they are, a 0 included, and the default only for an absent one. */
  lemma LookupIs(st: Store, h: string)
    ensures Lookup(st, h).Some? <==> h in st.keys && !st.keys[h].revoked && st.keys[h].tenant in st.tenants
    ensures Lookup(st, h).Some? ==>
              var t := st.keys[h].tenant;
              var i := Lookup(st, h).value;
              var q := if t in st.quotas then st.quotas[t] else Quota(None, None, None, None, None);
              && i.tenant == t && i.active == st.tenants[t]
              && (q.concurrent == Some(i.maxConcurrency) || (q.concurrent == None && i.maxConcurrency == 2))
              && (q.tpm == Some(i.dailyLimit) || (q.tpm == None && i.dailyLimit == 50000))
              && (q.rpm == Some(i.rpmLimit) || (q.rpm == None && i.rpmLimit == 0))
              && (q.modules == Some(i.modules) || (q.modules == None && i.modules == []))
              && (q.models == Some(i.models) || (q.models == None && i.models == []))
  {
  }

  /** A given field replaces the old one, an absent one leaves it. */
  predicate Patched<T(==)>(was: Option<T>, given: Option<T>, now: Option<T>) {
    now == given != None || (given == None && now == was)
  }

  predicate QuotaPatched(was: Quota, given: Quota, now: Quota) {
    && Patched(was.concurrent, given.concurrent, now.concurrent) && Patched(was.tpm, given.tpm, now.tpm)
    && Patched(was.rpm, given.rpm, now.rpm) && Patched(was.modules, given.modules, now.modules)
    && Patched(was.models, given.models, now.models)
  }

  /** What the three changes write, and that they write nothing else. */
  lemma ChangesAre(st: Store, tenant: string, status: Option<bool>, f: Quota, h: string, other: string)
    requires tenant in st.tenants && tenant in st.quotas && h in st.keys && other != tenant
    ensures
      var put := WithQuota(st, tenant, f);
      && put.keys == st.keys && put.tenants == st.tenants && put.quotas.Keys == st.quotas.Keys
      && QuotaPatched(st.quotas[tenant], f, put.quotas[tenant]) && QuotaOf(put, other) == QuotaOf(st, other)
    ensures
      var up := WithUpdate(st, tenant, status, f);
      && up.keys == st.keys && up.quotas == WithQuota(st, tenant, f).quotas
      && up.tenants == if status == None then st.tenants else st.tenants[tenant := status.value]
    ensures
      var cut := WithoutKey(st, h);
      && cut.tenants == st.tenants && cut.quotas == st.quotas && cut.keys.Keys == st.keys.Keys
      && cut.keys[h] == Key(st.keys[h].tenant, true)
      && forall x :: x in st.keys && x != h ==> cut.keys[x] == st.keys[x]
    ensures forall x :: x in KeysOf(st, tenant) <==> x in st.keys && st.keys[x] == Key(tenant, false)
  {
  }

  // ----- Uninterrupted handlers -----

  /** Every entry is what the store would answer. */
  predicate Agrees(c: Cache, st: Store) {
    forall h :: h in c ==> Some(c[h].info) == Lookup(st, h)
  }

  lemma AgreesResolves(c: Cache, st: Store, h: string, ms: nat)
    requires Agrees(c, st)
    ensures Resolved(c, st, h, ms) == Lookup(st, h)
  {
  }

  /** Once put_quota returns, the next decision for any unrevoked key of the tenant is the uncached
      one, and an agreeing cache still agrees on every key. */
  lemma PutQuotaTakesEffect(c: Cache, st: Store, tenant: string, fields: Quota, h: string, ms: nat)
    requires tenant in st.quotas
    ensures
      var st' := WithQuota(st, tenant, fields);
      var c' := c - KeysOf(st', tenant);
      && (h in KeysOf(st, tenant) ==> Resolved(c', st', h, ms) == Lookup(st', h))
      && (Agrees(c, st) ==> Agrees(c', st'))
  {
  }

  lemma RevocationTakesEffect(c: Cache, st: Store, h: string, ms: nat)
    requires h in st.keys
    ensures Resolved(c - {h}, WithoutKey(st, h), h, ms) == None
    ensures Agrees(c, st) ==> Agrees(c - {h}, WithoutKey(st, h))
  {
  }

  /** The given fields only repeat what is in force for the tenant. */
  predicate Repeats(st: Store, tenant: string, status: Option<bool>, f: Quota)
    requires tenant in st.tenants
  {
    var now := InfoOf(tenant, st.tenants[tenant], QuotaOf(st, tenant));
    && (status.Some? ==> status.value == now.active)
    && (tenant in st.quotas ==>
          && (f.concurrent.Some? ==> f.concurrent.value == now.maxConcurrency)
          && (f.tpm.Some? ==> f.tpm.value == now.dailyLimit)
          && (f.rpm.Some? ==> f.rpm.value == now.rpmLimit)
          && (f.modules.Some? ==> f.modules.value == now.modules)
          && (f.models.Some? ==> f.models.value == now.models))
  }

  /** The administrator's update drops no key entry: it takes effect at once for a key if and only if the
      key has no live entry or the update only repeats what is in force. */
  lemma UpdateTakesEffectIff(c: Cache, st: Store, tenant: string, status: Option<bool>, fields: Quota, h: string,
                             ms: nat)
    requires Agrees(c, st) && tenant in st.tenants && h in KeysOf(st, tenant)
    ensures
      var st' := WithUpdate(st, tenant, status, fields);
      Resolved(c, st', h, ms) == Lookup(st', h) <==> (Hit(c, h, ms).None? || Repeats(st, tenant, status, fields))
  {
    var st' := WithUpdate(st, tenant, status, fields);
    assert Lookup(st', h) == Lookup(st, h) <==> Repeats(st, tenant, status, fields);
  }

  /** A quota of 0 stops a tenant: it is not taken for an absent one. An absent field has its
      default, and every field reaches the decision it is for. */
  lemma ZeroQuotaStops(st: Store, h: string, p: Plane, req: Request, id: string, ms: nat, ttl: nat)
    requires ttl > 0 && id !in p.leases.scores && Lookup(st, h).Some?
    ensures
      var t := st.keys[h].tenant;
      var i := Lookup(st, h).value;
      && (t !in st.quotas ==>
        i.maxConcurrency == 2 && i.dailyLimit == 50000 && i.rpmLimit == 0 && i.modules == i.models == [])
      && (t in st.quotas && Some(0) in {st.quotas[t].tpm, st.quotas[t].concurrent} ==>
            Authorize(p, Some(i), req, id, ms, ttl).response.Refused?)
      && (t in st.quotas && st.quotas[t].rpm == Some(0) ==> Authorize(p, Some(i), req, id, ms, ttl).plane.rpm == p.rpm)
      && (!st.tenants[t] ==>
        Authorize(p, Some(i), req, id, ms, ttl).response in {Refused(TenantDisabled), Refused(InvalidApiKey)})
  {
    var used := Used(p.used, Day(ms));
    GrantedIff(p, Some(Lookup(st, h).value), req, id, ms, ttl, used);
    RefusedFor(p, Some(Lookup(st, h).value), req, id, ms, ttl, used);
  }

  // ----- Interleaved fills -----

  /** A read of the store: the version that was read, and when. */
  datatype Stamp = Stamp(version: nat, at: nat)

  /** Where an entry came from, read by read. */
  datatype Origin = Origin(key: Stamp, status: Stamp, quota: Stamp, written: nat)

  /** A value read from the store. */
  datatype Seen<+T> = Seen(what: T, stamp: Stamp)

  /** A fill between two of its steps. It reads the key first; then tenant and quota are gathered, in
      whatever order. */
  datatype Fill = Fill(h: string, tenant: string, key: Stamp, status: Option<Seen<bool>>,
                       quota: Option<Seen<Option<Quota>>>)

  predicate Ready(f: Fill) {
    f.status.Some? && f.quota.Some?
  }

  function InfoRead(f: Fill): TenantInfo
    requires Ready(f)
  {
    InfoOf(f.tenant, f.status.value.what, f.quota.value.what)
  }

  /** The cache, the origins of its entries, every version of the store and since when, and the fills
      under way. */
  datatype World = World(cache: Cache, origin: map<string, Origin>, versions: seq<Store>, since: seq<nat>,
                         fills: set<Fill>)

  datatype Event =
    | Change(store: Store)
    | Drop(hashes: set<string>)
    | ReadKey(h: string)
    | ReadTenant(fill: Fill)
    | ReadQuota(fill: Fill)
    | Write(fill: Fill)

  datatype Timed = Timed(event: Event, ms: nat)

  function Begin(st: Store): World {
    World(map[], map[], [st], [0], {})
  }

  function Now(w: World, ms: nat): Stamp
    requires w.versions != []
  {
    Stamp(|w.versions| - 1, ms)
  }

  /** A fill reads only unrevoked keys and existing tenants; otherwise it ends. */
  function Step(w: World, e: Timed): World
    requires w.versions != [] && Enabled(w, e.event)
  {
    var st := Last(w.versions);
    match e.event
    case Change(st') => w.(versions := w.versions + [st'], since := w.since + [e.ms])
    case Drop(hashes) => w.(cache := w.cache - hashes, origin := w.origin - hashes)
    case ReadKey(h) =>
      if h !in st.keys || st.keys[h].revoked then w
      else w.(fills := w.fills + {Fill(h, st.keys[h].tenant, Now(w, e.ms), None, None)})
    case ReadTenant(f) =>
      if f.tenant !in st.tenants then w.(fills := w.fills - {f})
      else w.(fills := w.fills - {f} + {f.(status := Some(Seen(st.tenants[f.tenant], Now(w, e.ms))))})
    case ReadQuota(f) =>
      w.(fills := w.fills - {f} + {f.(quota := Some(Seen(QuotaOf(st, f.tenant), Now(w, e.ms))))})
    case Write(f) =>
      w.(cache := w.cache[f.h := Cached(InfoRead(f), e.ms + ENTRY_TTL_MS)],
         origin := w.origin[f.h := Origin(f.key, f.status.value.stamp, f.quota.value.stamp, e.ms)],
         fills := w.fills - {f})
  }

  predicate Enabled(w: World, e: Event) {
    match e
    case ReadTenant(f) => f in w.fills && f.status.None?
    case ReadQuota(f) => f in w.fills && f.quota.None?
    case Write(f) => f in w.fills && Ready(f)
    case _ => true
  }

  /** A write comes at most `lag` after the first read of its fill. */
  predicate Allowed(w: World, e: Timed, lag: nat) {
    Enabled(w, e.event) && (e.event.Write? ==> e.ms <= e.event.fill.key.at + lag)
  }

  predicate Legal(w: World, run: seq<Timed>, now: nat, lag: nat)
    requires w.versions != []
    decreases |run|
  {
    if run == [] then true
    else now <= run[0].ms && Allowed(w, run[0], lag) && Legal(Step(w, run[0]), run[1..], run[0].ms, lag)
  }

  function After(w: World, run: seq<Timed>, now: nat, lag: nat): (w': World)
    requires w.versions != [] && Legal(w, run, now, lag)
    ensures w'.versions != []
    decreases |run|
  {
    if run == [] then w else After(Step(w, run[0]), run[1..], run[0].ms, lag)
  }

  function Clock(run: seq<Timed>, now: nat): nat {
    if run == [] then now else run[|run| - 1].ms
  }

  /** The version that the store held at an instant. */
  predicate Current(since: seq<nat>, s: Stamp) {
    s.version < |since| && since[s.version] <= s.at && (s.version + 1 < |since| ==> s.at <= since[s.version + 1])
  }

  /** The key, unrevoked and of the tenant, as the store held it. */
  predicate HeldKey(w: World, h: string, tenant: string, s: Stamp) {
    && Current(w.since, s) && s.version < |w.versions|
    && var st := w.versions[s.version];
       h in st.keys && !st.keys[h].revoked && st.keys[h].tenant == tenant
  }

  predicate HeldStatus(w: World, tenant: string, active: bool, s: Stamp) {
    && Current(w.since, s) && s.version < |w.versions|
    && var st := w.versions[s.version];
       tenant in st.tenants && st.tenants[tenant] == active
  }

  predicate HeldQuota(w: World, tenant: string, quota: Option<Quota>, s: Stamp) {
    Current(w.since, s) && s.version < |w.versions| && quota == QuotaOf(w.versions[s.version], tenant)
  }

  /** The limits of an information are those of the quota the store held. */
  predicate HeldLimits(w: World, info: TenantInfo, s: Stamp) {
    && Current(w.since, s) && s.version < |w.versions|
    && info == InfoOf(info.tenant, info.active, QuotaOf(w.versions[s.version], info.tenant))
  }

  /** Every part of an information was held by the store when it was read, the key first. */
  predicate Pieced(w: World, h: string, info: TenantInfo, key: Stamp, status: Stamp, quota: Stamp, now: nat) {
    && HeldKey(w, h, info.tenant, key) && HeldStatus(w, info.tenant, info.active, status) && HeldLimits(w, info, quota)
    && key.at <= status.at <= now && key.at <= quota.at <= now
  }

  predicate EntryOk(w: World, h: string, now: nat, lag: nat)
    requires h in w.cache
  {
    && h in w.origin
    && var o := w.origin[h];
       && Pieced(w, h, w.cache[h].info, o.key, o.status, o.quota, o.written)
       && o.written <= now && o.written <= o.key.at + lag
       && w.cache[h].expireAt == o.written + 300_000
  }

  predicate FillOk(w: World, f: Fill, now: nat) {
    && HeldKey(w, f.h, f.tenant, f.key) && f.key.at <= now
    && (f.status.Some? ==>
          var s := f.status.value;
          HeldStatus(w, f.tenant, s.what, s.stamp) && f.key.at <= s.stamp.at <= now)
    && (f.quota.Some? ==>
          var q := f.quota.value;
          HeldQuota(w, f.tenant, q.what, q.stamp) && f.key.at <= q.stamp.at <= now)
  }

  predicate Inv(w: World, now: nat, lag: nat) {
    && |w.since| == |w.versions| > 0 && Last(w.since) <= now
    && (forall h :: h in w.cache ==> EntryOk(w, h, now, lag))
    && (forall f :: f in w.fills ==> FillOk(w, f, now))
  }

  /** What was held at a stamp stays so when the store changes later. */
  lemma StampStays(w: World, e: Timed, now: nat, s: Stamp)
    requires |w.since| == |w.versions| > 0 && now <= e.ms && Enabled(w, e.event) && Current(w.since, s) && s.at <= now
    ensures Current(Step(w, e).since, s) && Step(w, e).versions[s.version] == w.versions[s.version]
  {
  }

  lemma EntryKeeps(w: World, e: Timed, now: nat, lag: nat, h: string)
    requires |w.since| == |w.versions| > 0 && now <= e.ms && Allowed(w, e, lag) && h in Step(w, e).cache
    requires
      if e.event.Write? && h == e.event.fill.h then FillOk(w, e.event.fill, now)
      else h in w.cache && EntryOk(w, h, now, lag)
    ensures EntryOk(Step(w, e), h, e.ms, lag)
  {
    var o := Step(w, e).origin[h];
    var info := Step(w, e).cache[h].info;
    if e.event.Write? && h == e.event.fill.h {
      PiecedStays(w, e, now, h, info, o.key, o.status, o.quota, now);
    } else {
      PiecedStays(w, e, now, h, info, o.key, o.status, o.quota, o.written);
    }
  }

  lemma PiecedStays(w: World, e: Timed, now: nat, h: string, info: TenantInfo, key: Stamp, status: Stamp,
                    quota: Stamp, at: nat)
    requires |w.since| == |w.versions| > 0 && now <= e.ms && Enabled(w, e.event) && at <= now
    requires Pieced(w, h, info, key, status, quota, at)
    ensures Pieced(Step(w, e), h, info, key, status, quota, at)
  {
    StampStays(w, e, now, key);
    StampStays(w, e, now, status);
    StampStays(w, e, now, quota);
  }

  lemma NowIsCurrent(w: World, ms: nat)
    requires |w.since| == |w.versions| > 0 && Last(w.since) <= ms
    ensures Current(w.since, Now(w, ms)) && w.versions[Now(w, ms).version] == Last(w.versions)
  {
  }

  lemma FillStays(w: World, e: Timed, now: nat, f: Fill)
    requires |w.since| == |w.versions| > 0 && now <= e.ms && Enabled(w, e.event) && FillOk(w, f, now)
    ensures FillOk(Step(w, e), f, e.ms)
  {
    StampStays(w, e, now, f.key);
    if f.status.Some? { StampStays(w, e, now, f.status.value.stamp); }
    if f.quota.Some? { StampStays(w, e, now, f.quota.value.stamp); }
  }

  lemma FillKeeps(w: World, e: Timed, now: nat, lag: nat, f: Fill)
    requires Inv(w, now, lag) && now <= e.ms && Enabled(w, e.event) && f in Step(w, e).fills
    ensures FillOk(Step(w, e), f, e.ms)
  {
    NowIsCurrent(w, e.ms);
    if f in w.fills {
      FillStays(w, e, now, f);
    } else if e.event.ReadTenant? || e.event.ReadQuota? {
      FillStays(w, e, now, e.event.fill);
    }
  }

  lemma StepKeeps(w: World, e: Timed, now: nat, lag: nat)
    requires Inv(w, now, lag) && now <= e.ms && Allowed(w, e, lag)
    ensures Inv(Step(w, e), e.ms, lag)
  {
    forall h | h in Step(w, e).cache ensures EntryOk(Step(w, e), h, e.ms, lag) {
      EntryKeeps(w, e, now, lag, h);
    }
    forall f | f in Step(w, e).fills ensures FillOk(Step(w, e), f, e.ms) {
      FillKeeps(w, e, now, lag, f);
    }
  }

  lemma {:induction false} RunKeeps(w: World, run: seq<Timed>, now: nat, lag: nat)
    requires Inv(w, now, lag) && Legal(w, run, now, lag)
    ensures Inv(After(w, run, now, lag), Clock(run, now), lag)
    decreases |run|
  {
    if run != [] {
      StepKeeps(w, run[0], now, lag);
      RunKeeps(Step(w, run[0]), run[1..], run[0].ms, lag);
    }
  }

  predicate Recent(s: Stamp, ms: nat, lag: nat) {
    s.at <= ms < s.at + lag + 300_000
  }

  /** Each part of an information as the store held it not long ago. */
  predicate RecentlyHeld(w: World, h: string, info: TenantInfo, key: Stamp, status: Stamp, quota: Stamp, ms: nat,
                         lag: nat) {
    && HeldKey(w, h, info.tenant, key) && HeldStatus(w, info.tenant, info.active, status) && HeldLimits(w, info, quota)
    && key.at <= status.at <= key.at + lag && key.at <= quota.at <= key.at + lag
    && Recent(key, ms, lag) && Recent(status, ms, lag) && Recent(quota, ms, lag)
  }

  /**
   In every run in which a fill writes at most `lag` after its first read, each part of what a cache hit
   returns is what the store held at an instant less than 300 s plus `lag` ago: that the key was the
   tenant's and unrevoked, whether the tenant was active, and its limits. With uninterrupted fills the
   instants are one, and less than 300 s ago.
   */
  lemma HitIsRecent(st: Store, run: seq<Timed>, lag: nat, h: string, ms: nat)
    requires Legal(Begin(st), run, 0, lag) && Clock(run, 0) <= ms
    requires Hit(After(Begin(st), run, 0, lag).cache, h, ms).Some?
    ensures
      var w := After(Begin(st), run, 0, lag);
      var info := Hit(w.cache, h, ms).value;
      exists key, status, quota :: RecentlyHeld(w, h, info, key, status, quota, ms, lag)
  {
    RunKeeps(Begin(st), run, 0, lag);
    var w := After(Begin(st), run, 0, lag);
    assert EntryOk(w, h, Clock(run, 0), lag);
    var o := w.origin[h];
    assert RecentlyHeld(w, h, w.cache[h].info, o.key, o.status, o.quota, ms, lag);
  }

  // ----- After an invalidation -----

  /** A run in which the store does not change. */
  predicate Quiet(w: World, run: seq<Timed>, now: nat, lag: nat)
    requires w.versions != []
  {
    Legal(w, run, now, lag) && forall i :: 0 <= i < |run| ==> !run[i].event.Change?
  }

  /** What the cache holds for the key, if anything, is what the store would answer now. */
  predicate Settled(w: World, h: string)
    requires w.versions != []
  {
    h in w.cache ==> Some(w.cache[h].info) == Lookup(Last(w.versions), h)
  }

  /** What a fill will write if it reads the rest from this store. */
  function Completed(f: Fill, st: Store): Option<TenantInfo> {
    if f.status.None? && f.tenant !in st.tenants then None
    else Some(InfoOf(f.tenant, if f.status.Some? then f.status.value.what else st.tenants[f.tenant],
                     if f.quota.Some? then f.quota.value.what else QuotaOf(st, f.tenant)))
  }

  /** No fill of the key has read something that has changed since. */
  predicate NoOldFill(w: World, h: string)
    requires w.versions != []
  {
    var st := Last(w.versions);
    forall f :: f in w.fills && f.h == h && Completed(f, st).Some? ==> Completed(f, st) == Lookup(st, h)
  }

  lemma NoOldFillStep(w: World, e: Timed, h: string)
    requires w.versions != [] && Enabled(w, e.event) && !e.event.Change? && NoOldFill(w, h)
    ensures NoOldFill(Step(w, e), h)
  {
  }

  lemma SettledStep(w: World, e: Timed, lag: nat, h: string)
    requires w.versions != [] && Allowed(w, e, lag) && !e.event.Change? && Settled(w, h) && NoOldFill(w, h)
    ensures Settled(Step(w, e), h) && NoOldFill(Step(w, e), h)
  {
    NoOldFillStep(w, e, h);
    if e.event.Write? && e.event.fill.h == h {
      assert Completed(e.event.fill, Last(w.versions)) == Some(InfoRead(e.event.fill));
    }
  }

  lemma {:induction false} StaysSettled(w: World, run: seq<Timed>, now: nat, lag: nat, h: string)
    requires w.versions != [] && Quiet(w, run, now, lag) && Settled(w, h) && NoOldFill(w, h)
    ensures Settled(After(w, run, now, lag), h)
    decreases |run|
  {
    if run != [] {
      assert !run[0].event.Change?;
      SettledStep(w, run[0], lag, h);
      StaysSettled(Step(w, run[0]), run[1..], run[0].ms, lag, h);
    }
  }

  lemma Prepend(w: World, e: Timed, run: seq<Timed>, now: nat, lag: nat)
    requires w.versions != [] && now <= e.ms && Allowed(w, e, lag) && Legal(Step(w, e), run, e.ms, lag)
    ensures Legal(w, [e] + run, now, lag) && After(w, [e] + run, now, lag) == After(Step(w, e), run, e.ms, lag)
    ensures !e.event.Change? && Quiet(Step(w, e), run, e.ms, lag) ==> Quiet(w, [e] + run, now, lag)
  {
    assert ([e] + run)[1..] == run;
  }

  /** A fill can always run to its end, and then the cache holds what it read. */
  lemma FillEnds(w: World, f: Fill, now: nat, lag: nat) returns (run: seq<Timed>)
    requires w.versions != [] && f in w.fills && now <= f.key.at + lag && Completed(f, Last(w.versions)).Some?
    ensures Quiet(w, run, now, lag)
    ensures
      var w' := After(w, run, now, lag);
      w'.versions == w.versions && f.h in w'.cache && Some(w'.cache[f.h].info) == Completed(f, Last(w.versions))
    decreases (if f.status.None? then 1 else 0) + if f.quota.None? then 1 else 0
  {
    var st := Last(w.versions);
    var e: Timed;
    if f.status.None? {
      e := Timed(ReadTenant(f), now);
      run := FillEnds(Step(w, e), f.(status := Some(Seen(st.tenants[f.tenant], Now(w, now)))), now, lag);
    } else if f.quota.None? {
      e := Timed(ReadQuota(f), now);
      run := FillEnds(Step(w, e), f.(quota := Some(Seen(QuotaOf(st, f.tenant), Now(w, now)))), now, lag);
    } else {
      e := Timed(Write(f), now);
      run := [];
    }
    Prepend(w, e, run, now, lag);
    run := [e] + run;
  }

  /**
   Once the entries of some keys are dropped, and until the store changes again, every hit on such a
   key is the uncached answer in every run if and only if no fill that was under way at the drop has
   read something that has changed since.
   */
  lemma DropSettlesIff(w: World, hashes: set<string>, now: nat, h: string)
    requires w.versions != [] && h in hashes
    ensures
      var w' := Step(w, Timed(Drop(hashes), now));
      (forall run: seq<Timed>, lag: nat :: Quiet(w', run, now, lag) ==> Settled(After(w', run, now, lag), h))
        <==> NoOldFill(w, h)
  {
    var w' := Step(w, Timed(Drop(hashes), now));
    if NoOldFill(w, h) {
      forall run: seq<Timed>, lag: nat | Quiet(w', run, now, lag) ensures Settled(After(w', run, now, lag), h) {
        StaysSettled(w', run, now, lag, h);
      }
    } else {
      var st := Last(w.versions);
      var f :| f in w.fills && f.h == h && Completed(f, st).Some? && Completed(f, st) != Lookup(st, h);
      var run := FillEnds(w', f, now, now);
      assert Quiet(w', run, now, now) && !Settled(After(w', run, now, now), h);
    }
  }

  /** The steps of a fill with nothing in between do what the handler does on a miss. */
  lemma UninterruptedFill(w: World, h: string, ms: nat)
    requires w.versions != [] && Lookup(Last(w.versions), h).Some?
    ensures
      var st := Last(w.versions);
      var now := Now(w, ms);
      var t := st.keys[h].tenant;
      var f1 := Fill(h, t, now, None, None);
      var f2 := f1.(status := Some(Seen(st.tenants[t], now)));
      var f3 := f2.(quota := Some(Seen(QuotaOf(st, t), now)));
      var w1 := w.(fills := w.fills + {f1});
      var w2 := w.(fills := w.fills + {f1} - {f1} + {f2});
      var w3 := w.(fills := w2.fills - {f2} + {f3});
      && Step(w, Timed(ReadKey(h), ms)) == w1
      && Enabled(w1, ReadTenant(f1)) && Step(w1, Timed(ReadTenant(f1), ms)) == w2
      && Enabled(w2, ReadQuota(f2)) && Step(w2, Timed(ReadQuota(f2), ms)) == w3
      && Enabled(w3, Write(f3))
      && Step(w3, Timed(Write(f3), ms)).cache == w.cache[h := Cached(Lookup(st, h).value, ms + 300_000)]
  {
  }

  /** A fill is over once it has written, or when its tenant is gone; no other fill is touched. */
  lemma FillIsOver(w: World, f: Fill, ms: nat, other: Fill)
    requires w.versions != [] && f in w.fills && other != f
    ensures Enabled(w, Write(f)) ==>
              var fills := Step(w, Timed(Write(f), ms)).fills;
              f !in fills && (other in fills <==> other in w.fills)
    ensures Enabled(w, ReadTenant(f)) && f.tenant !in Last(w.versions).tenants ==>
              var fills := Step(w, Timed(ReadTenant(f), ms)).fills;
              f !in fills && (other in fills <==> other in w.fills)
  {
  }

  // ----- Two runs that show it -----

  /** A fill that reads everything in the first instant. */
  lemma FillReads(st: Store, h: string, lag: nat) returns (readings: seq<Timed>, f: Fill)
    requires Lookup(st, h).Some?
    ensures |readings| == 3 && Legal(Begin(st), readings, 0, lag) && Clock(readings, 0) == 0
    ensures Ready(f) && f.h == h && Some(InfoRead(f)) == Lookup(st, h) && f.key.at == 0
    ensures After(Begin(st), readings, 0, lag) == Begin(st).(fills := {f})
  {
    var w := Begin(st);
    var t := st.keys[h].tenant;
    var f1 := Fill(h, t, Stamp(0, 0), None, None);
    var f2 := f1.(status := Some(Seen(st.tenants[t], Stamp(0, 0))));
    f := f2.(quota := Some(Seen(QuotaOf(st, t), Stamp(0, 0))));
    var w1, w2, w3 := w.(fills := {f1}), w.(fills := {f2}), w.(fills := {f});
    assert Step(w, Timed(ReadKey(h), 0)) == w1;
    assert Step(w1, Timed(ReadTenant(f1), 0)) == w2;
    assert Step(w2, Timed(ReadQuota(f2), 0)) == w3;
    Prepend(w2, Timed(ReadQuota(f2), 0), [], 0, lag);
    Prepend(w1, Timed(ReadTenant(f1), 0), [Timed(ReadQuota(f2), 0)] + [], 0, lag);
    Prepend(w, Timed(ReadKey(h), 0), [Timed(ReadTenant(f1), 0)] + ([Timed(ReadQuota(f2), 0)] + []), 0, lag);
    readings := [Timed(ReadKey(h), 0)] + ([Timed(ReadTenant(f1), 0)] + ([Timed(ReadQuota(f2), 0)] + []));
  }

  lemma {:induction false} Concat(w: World, a: seq<Timed>, b: seq<Timed>, now: nat, lag: nat)
    requires w.versions != [] && Legal(w, a, now, lag) && Legal(After(w, a, now, lag), b, Clock(a, now), lag)
    ensures Legal(w, a + b, now, lag)
            && After(w, a + b, now, lag) == After(After(w, a, now, lag), b, Clock(a, now), lag)
    decreases |a|
  {
    if a == [] {
      assert a + b == b;
    } else {
      assert (a + b)[1..] == a[1..] + b && Clock(a, now) == Clock(a[1..], a[0].ms);
      Concat(Step(w, a[0]), a[1..], b, a[0].ms, lag);
    }
  }

  /** A fill that read before put_quota and writes after it brings the old quota back. */
  lemma PutQuotaRace(tenant: string, h: string, was: Quota, fields: Quota)
    requires was.tpm.Some? && fields.tpm.Some? && was.tpm != fields.tpm
    ensures
      var st := Store(map[h := Key(tenant, false)], map[tenant := true], map[tenant := was]);
      var st' := WithQuota(st, tenant, fields);
      exists run: seq<Timed> ::
        && Legal(Begin(st), run, 0, 3) && Timed(Drop(KeysOf(st', tenant)), 2) in run
        && Last(After(Begin(st), run, 0, 3).versions) == st'
        && Hit(After(Begin(st), run, 0, 3).cache, h, 3) == Lookup(st, h) != Lookup(st', h)
  {
    var st := Store(map[h := Key(tenant, false)], map[tenant := true], map[tenant := was]);
    var st' := WithQuota(st, tenant, fields);
    var readings, f := FillReads(st, h, 3);
    var drop := Timed(Drop(KeysOf(st', tenant)), 2);
    var w := Begin(st).(fills := {f});
    var w1 := Step(w, Timed(Change(st'), 1));
    var w2 := Step(w1, drop);
    Prepend(w2, Timed(Write(f), 3), [], 2, 3);
    Prepend(w1, drop, [Timed(Write(f), 3)] + [], 1, 3);
    Prepend(w, Timed(Change(st'), 1), [drop] + ([Timed(Write(f), 3)] + []), 0, 3);
    var rest := [Timed(Change(st'), 1)] + ([drop] + ([Timed(Write(f), 3)] + []));
    Concat(Begin(st), readings, rest, 0, 3);
    assert (readings + rest)[4] == drop;
    assert After(Begin(st), readings + rest, 0, 3) == Step(w2, Timed(Write(f), 3));
  }

  /** A tenant that is disabled one instant after its key was cached passes for active for 300 s. */
  lemma DisabledStillActive(tenant: string, h: string, quota: Quota, ms: nat)
    requires 1 <= ms < 300_000
    ensures
      var st := Store(map[h := Key(tenant, false)], map[tenant := true], map[tenant := quota]);
      var st' := WithUpdate(st, tenant, Some(false), Quota(None, None, None, None, None));
      exists run: seq<Timed> ::
        && Legal(Begin(st), run, 0, 0) && Last(After(Begin(st), run, 0, 0).versions) == st'
        && Hit(After(Begin(st), run, 0, 0).cache, h, ms).Some?
        && Hit(After(Begin(st), run, 0, 0).cache, h, ms).value.active
        && Lookup(st', h).Some? && !Lookup(st', h).value.active
  {
    var st := Store(map[h := Key(tenant, false)], map[tenant := true], map[tenant := quota]);
    var st' := WithUpdate(st, tenant, Some(false), Quota(None, None, None, None, None));
    var readings, f := FillReads(st, h, 0);
    var w := Begin(st).(fills := {f});
    var w1 := Step(w, Timed(Write(f), 0));
    Prepend(w1, Timed(Change(st'), 1), [], 0, 0);
    Prepend(w, Timed(Write(f), 0), [Timed(Change(st'), 1)] + [], 0, 0);
    var rest := [Timed(Write(f), 0)] + ([Timed(Change(st'), 1)] + []);
    Concat(Begin(st), readings, rest, 0, 0);
    assert After(Begin(st), readings + rest, 0, 0) == Step(w1, Timed(Change(st'), 1));
  }
}
