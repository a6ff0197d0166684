/**
 The authorization plane (fusion_identity/grpc_servicer.py, IdentityServiceServicer): a pipeline
 of gates over the tenant's daily counter, its lease set and its request window, with rollback.

 The tenant information of a request comes from the cache or the store; it is an input here.
 The daily counter of a day outlives the day (its key lives 7 days), so its end is not modelled.
 */
module Servicer {
  import opened Util
  import LeaseSet
  import RpmWindow

  const DEFAULT_MAX_TOKENS := 4096
  const DAY_MS := 86_400_000

  function Day(ms: nat): int {
    ms / DAY_MS
  }

  datatype Code = InvalidApiKey | TenantDisabled | ModuleUnauthorized | ModelUnauthorized
                | ConcurrencyLimit | DailyQuota | RateLimit

  datatype Request = Request(apiKey: string, tenant: string, targetModule: string, model: string)

  datatype TenantInfo = TenantInfo(tenant: string, active: bool, modules: seq<string>, models: seq<string>,
                                   maxConcurrency: int, dailyLimit: int, rpmLimit: int)

  datatype Response = Refused(code: Code) | Granted(lease: string, maxTokens: int)

  /** What Redis holds for one tenant: leases, tokens used by day, and the request window. */
  datatype Plane = Plane(leases: LeaseSet.Leases, used: map<int, int>, rpm: RpmWindow.RpmKey)

  function Used(used: map<int, int>, day: int): int {
    if day in used then used[day] else 0
  }

  datatype Action = Acquired | Freed

  datatype Entry = Entry(tenant: string, lease: string, action: Action)

  /** The state after a call, the lease log entries it wrote, and its response. */
  datatype Outcome = Outcome(plane: Plane, log: seq<Entry>, response: Response)

  /** The checks that touch no counter. A missing key record or tenant arrives as None. */
  function Gate(info: Option<TenantInfo>, req: Request): Option<Code> {
    if req.apiKey == "" || info.None? then Some(InvalidApiKey)
    else
      var i := info.value;
      if !i.active then Some(TenantDisabled)
      else if req.tenant != "" && req.tenant != i.tenant then Some(InvalidApiKey)
      else if i.modules != [] && req.targetModule != "" && req.targetModule !in i.modules then Some(ModuleUnauthorized)
      else if i.models != [] && req.model != "" && req.model !in i.models then Some(ModelUnauthorized)
      else if i.dailyLimit <= 0 then Some(DailyQuota)
      else None
  }

  /** The token allowance for what is left of the day: nothing left means the default. */
  function Allowance(remaining: int): int {
    Min(DEFAULT_MAX_TOKENS, if remaining > 0 then remaining else DEFAULT_MAX_TOKENS)
  }

  /** The pipeline behind the gate. */
  function Admission(p: Plane, i: TenantInfo, id: string, ms: nat, ttl: nat): Outcome {
    var used := Used(p.used, Day(ms));
    if used > i.dailyLimit then Outcome(p, [], Refused(DailyQuota))
    else Entered(p.(used := p.used[Day(ms) := used]), i, Max(0, i.dailyLimit - used), id, ms, ttl)
  }

  /** The lease gate, once the daily counter let the request pass. */
  function Entered(p: Plane, i: TenantInfo, remaining: int, id: string, ms: nat, ttl: nat): Outcome {
    if i.maxConcurrency <= 0 then Outcome(p, [], Refused(ConcurrencyLimit))
    else
      var acquired := LeaseSet.Acquire(p.leases, ms, ttl, id, i.maxConcurrency);
      if acquired.count == 0 then Outcome(p.(leases := acquired.leases), [], Refused(ConcurrencyLimit))
      else Metered(p.(leases := acquired.leases), i, remaining, id, ms)
  }

  /** The request window, last of all; a refusal gives the lease back. */
  function Metered(p: Plane, i: TenantInfo, remaining: int, id: string, ms: nat): Outcome {
    if i.rpmLimit > 0 then
      var v := RpmWindow.Script(p.rpm, ms, i.rpmLimit);
      if !v.ok then
        Outcome(p.(leases := LeaseSet.Release(p.leases, ms, id).leases, rpm := v.key),
                [Entry(i.tenant, id, Acquired), Entry(i.tenant, id, Freed)], Refused(RateLimit))
      else
        Outcome(p.(rpm := v.key), [Entry(i.tenant, id, Acquired)], Granted(id, Allowance(remaining)))
    else Outcome(p, [Entry(i.tenant, id, Acquired)], Granted(id, Allowance(remaining)))
  }

  function Authorize(p: Plane, info: Option<TenantInfo>, req: Request, id: string, ms: nat, ttl: nat): Outcome {
    match Gate(info, req)
    case Some(code) => Outcome(p, [], Refused(code))
    case None => Admission(p, info.value, id, ms, ttl)
  }

  /** Lease ids start with their tenant. */
  predicate Belongs(lease: string, tenant: string) {
    lease != "" && tenant + ":" <= lease
  }

  class IdentityServicer {
    const cache: RpmWindow.RpmCache
    const concurrency: LeaseSet.ConcurrencyManager
    var used: map<string, map<int, int>>
    var log: seq<Entry>

    function UsedOf(tenant: string): map<int, int>
      reads this
    {
      if tenant in used then used[tenant] else map[]
    }

    function PlaneOf(tenant: string): Plane
      reads this, cache, concurrency
    {
      Plane(concurrency.SetOf(tenant), UsedOf(tenant), cache.KeyOf(tenant))
    }

    constructor (cache: RpmWindow.RpmCache, concurrency: LeaseSet.ConcurrencyManager)
      ensures this.cache == cache && this.concurrency == concurrency && used == map[] && log == []
    {
      this.cache, this.concurrency := cache, concurrency;
      used, log := map[], [];
    }

    /** reserve_daily_quota: adds nothing, so a counter at its cap still passes. */
    method ReserveDailyQuota(tenant: string, dailyLimit: int, ms: nat) returns (ok: bool, remaining: int)
      modifies `used
      ensures var n := Used(old(UsedOf(tenant)), Day(ms));
              && ok == (n <= dailyLimit)
              && remaining == Max(0, dailyLimit - n)
              && UsedOf(tenant) == (if ok then old(UsedOf(tenant))[Day(ms) := n] else old(UsedOf(tenant)))
      ensures forall t :: t != tenant ==> UsedOf(t) == old(UsedOf(t))
    {
      var n := Used(UsedOf(tenant), Day(ms));
      if n > dailyLimit {
        return false, Max(0, dailyLimit - n);
      }
      used := used[tenant := UsedOf(tenant)[Day(ms) := n]];
      return true, Max(0, dailyLimit - n);
    }

    /** The end of _authorize, once the lease is held. */
    method Meter(i: TenantInfo, remaining: int, id: string, ms: nat) returns (r: Response)
      modifies this, cache, concurrency
      ensures forall t :: t != i.tenant ==> PlaneOf(t) == old(PlaneOf(t))
      ensures var o := Metered(old(PlaneOf(i.tenant)), i, remaining, id, ms);
              PlaneOf(i.tenant) == o.plane && log == old(log) + o.log && r == o.response
    {
      log := log + [Entry(i.tenant, id, Acquired)];
      if i.rpmLimit > 0 {
        var rpmOk, _ := cache.CheckRpm(i.tenant, i.rpmLimit, ms);
        if !rpmOk {
          var _ := concurrency.ReleaseLease(i.tenant, id, ms);
          log := log + [Entry(i.tenant, id, Freed)];
          return Refused(RateLimit);
        }
      }
      return Granted(id, Allowance(remaining));
    }

    /** _authorize, with the tenant information resolved and a fresh lease id. */
    method AuthorizeAndAcquire(info: Option<TenantInfo>, req: Request, id: string, ms: nat) returns (r: Response)
      modifies this, cache, concurrency
      ensures info.None? ==> r == Refused(InvalidApiKey)
      ensures forall t :: info.None? || t != info.value.tenant ==> PlaneOf(t) == old(PlaneOf(t))
      ensures info.None? ==> log == old(log)
      ensures info.Some? ==>
                var o := Authorize(old(PlaneOf(info.value.tenant)), info, req, id, ms, concurrency.leaseTtl);
                PlaneOf(info.value.tenant) == o.plane && log == old(log) + o.log && r == o.response
    {
      var refusal := Gate(info, req);
      if refusal.Some? {
        return Refused(refusal.value);
      }
      var i := info.value;
      var quotaOk, remaining := ReserveDailyQuota(i.tenant, i.dailyLimit, ms);
      if !quotaOk {
        return Refused(DailyQuota);
      }
      var acquired := concurrency.TryAcquire(i.tenant, id, i.maxConcurrency, ms);
      if acquired == None {
        return Refused(ConcurrencyLimit);
      }
      r := Meter(i, remaining, id, ms);
    }

    /** ReleaseLease: a lease of another tenant is refused, one that is gone is reported. */
    method ReleaseLease(tenant: string, lease: string, ms: nat) returns (ok: bool)
      modifies this, concurrency
      ensures forall t :: t != tenant || !Belongs(lease, tenant) ==> PlaneOf(t) == old(PlaneOf(t))
      ensures !Belongs(lease, tenant) ==> !ok && log == old(log)
      ensures Belongs(lease, tenant) ==>
                var o := Release(old(PlaneOf(tenant)), tenant, lease, ms);
                PlaneOf(tenant) == o.plane && log == old(log) + o.log && ok == (o.log != [])
    {
      if !Belongs(lease, tenant) {
        return false;
      }
      ok := GiveBack(tenant, lease, ms);
    }

    /** Release a lease and log it if it was there. */
    method GiveBack(tenant: string, lease: string, ms: nat) returns (ok: bool)
      modifies `log, concurrency
      ensures forall t :: t != tenant ==> concurrency.SetOf(t) == old(concurrency.SetOf(t))
      ensures var r := LeaseSet.Release(old(concurrency.SetOf(tenant)), ms, lease);
              && concurrency.SetOf(tenant) == r.leases
              && ok == (r.count >= 0)
              && log == old(log) + (if r.count >= 0 then [Entry(tenant, lease, Freed)] else [])
    {
      var active := concurrency.ReleaseLease(tenant, lease, ms);
      ok := active >= 0;
      if ok {
        log := log + [Entry(tenant, lease, Freed)];
      }
    }

    /** record_token_usage. */
    method RecordTokenUsage(tenant: string, tokens: int, ms: nat)
      modifies `used
      ensures UsedOf(tenant) == old(UsedOf(tenant))[Day(ms) := Used(old(UsedOf(tenant)), Day(ms)) + tokens]
      ensures forall t :: t != tenant ==> UsedOf(t) == old(UsedOf(t))
    {
      used := used[tenant := UsedOf(tenant)[Day(ms) := Used(UsedOf(tenant), Day(ms)) + tokens]];
    }

    /** ReportUsage: the tokens count only if the usage ledger took them; the lease may be given back.
        Returns the success flag and what is left of the day. */
    method ReportUsage(tenant: string, lease: string, tokens: int, releaseAfter: bool, ledgerOk: bool,
                       dailyLimit: int, ms: nat)
      returns (ok: bool, remaining: int)
      modifies this, concurrency
      ensures forall t :: t != tenant ==> PlaneOf(t) == old(PlaneOf(t))
      ensures lease != "" && !Belongs(lease, tenant) ==>
              !ok && remaining == 0 && PlaneOf(tenant) == old(PlaneOf(tenant)) && log == old(log)
      ensures lease == "" || Belongs(lease, tenant) ==>
                var o := Report(old(PlaneOf(tenant)), tenant, lease, tokens, releaseAfter, ledgerOk, ms);
                && PlaneOf(tenant) == o.plane && log == old(log) + o.log
                && ok == (tokens > 0 ==> ledgerOk)
                && remaining == Max(0, dailyLimit - Used(o.plane.used, Day(ms)))
    {
      if lease != "" && !Belongs(lease, tenant) {
        return false, 0;
      }
      ok := true;
      if tokens > 0 {
        ok := ledgerOk;
      }
      if tokens > 0 && ok {
        RecordTokenUsage(tenant, tokens, ms);
      }
      if lease != "" && releaseAfter {
        var _ := GiveBack(tenant, lease, ms);
      }
      remaining := Max(0, dailyLimit - Used(UsedOf(tenant), Day(ms)));
    }
  }

  /** The state after a release or a report, and the lease log entries it wrote. */
  datatype Effect = Effect(plane: Plane, log: seq<Entry>)

  function Release(p: Plane, tenant: string, lease: string, ms: nat): Effect {
    var r := LeaseSet.Release(p.leases, ms, lease);
    Effect(p.(leases := r.leases), if r.count >= 0 then [Entry(tenant, lease, Freed)] else [])
  }

  function Counted(used: map<int, int>, tokens: int, ledgerOk: bool, day: int): map<int, int> {
    if tokens > 0 && ledgerOk then used[day := Used(used, day) + tokens] else used
  }

  function Report(p: Plane, tenant: string, lease: string, tokens: int, releaseAfter: bool, ledgerOk: bool,
                  ms: nat): Effect {
    var p1 := p.(used := Counted(p.used, tokens, ledgerOk, Day(ms)));
    if lease != "" && releaseAfter then Release(p1, tenant, lease, ms) else Effect(p1, [])
  }

  // ----- All or nothing -----

  /** A second look in the same instant sees what the first one left. */
  lemma WindowAfter(k: RpmWindow.RpmKey, ms: nat, limit: int)
    requires limit > 0
    ensures
      var v := RpmWindow.Script(k, ms, limit);
      RpmWindow.Kept(v.key, ms) == RpmWindow.Kept(k, ms) + if v.ok then [Sec(ms)] else []
  {
    var lo := Sec(ms) - RpmWindow.WINDOW;
    var kept := RpmWindow.Kept(k, ms);
    if RpmWindow.AtTime(k, ms).Present? {
      RpmWindow.AboveAbove(k.scores, lo, lo);
    }
    assert RpmWindow.Above(kept, lo) == kept;
    RpmWindow.AboveSnoc(kept, Sec(ms), lo);
  }

  /**
   What a call leaves behind. A refusal leaves the running leases and its own lease id as they were,
   and only the rate-limit refusal reaches the request window, which it leaves as full as it was. A
   grant adds exactly its own lease and, under a rate limit, one request.
   */
  predicate AllOrNone(l: LeaseSet.Leases, rpm: RpmWindow.RpmKey, o: Outcome, i: TenantInfo, id: string, ms: nat,
                      ttl: nat) {
    match o.response
    case Refused(code) =>
      && LeaseSet.Holding(o.plane.leases, ms) == LeaseSet.Holding(l, ms) && id !in o.plane.leases.scores
      && (code != RateLimit ==> o.plane.rpm == rpm && o.log == [])
      && (code == RateLimit ==>
            RpmWindow.Kept(o.plane.rpm, ms) == RpmWindow.Kept(rpm, ms)
              && o.log == [Entry(i.tenant, id, Acquired), Entry(i.tenant, id, Freed)])
    case Granted(lease, _) =>
      && lease == id && o.log == [Entry(i.tenant, id, Acquired)]
      && LeaseSet.Holding(o.plane.leases, ms) == LeaseSet.Holding(l, ms)[id := Sec(ms) + ttl]
      && RpmWindow.Kept(o.plane.rpm, ms) == RpmWindow.Kept(rpm, ms) + if i.rpmLimit > 0 then [Sec(ms)] else []
  }

  predicate Fits(l: LeaseSet.Leases, rpm: RpmWindow.RpmKey, i: TenantInfo, ms: nat) {
    |LeaseSet.Holding(l, ms)| < i.maxConcurrency && (i.rpmLimit > 0 ==> |RpmWindow.Kept(rpm, ms)| < i.rpmLimit)
  }

  lemma MeteredKeeps(p: Plane, l: LeaseSet.Leases, i: TenantInfo, remaining: int, id: string, ms: nat, ttl: nat)
    requires id !in LeaseSet.Holding(l, ms) && p.leases.expireAt > ms
    requires p.leases.scores == LeaseSet.Holding(p.leases, ms) == LeaseSet.Holding(l, ms)[id := Sec(ms) + ttl]
    ensures
      var o := Metered(p, i, remaining, id, ms);
      && o.plane.used == p.used && AllOrNone(l, p.rpm, o, i, id, ms, ttl)
      && (o.response.Granted? <==> (i.rpmLimit > 0 ==> |RpmWindow.Kept(p.rpm, ms)| < i.rpmLimit))
  {
    if i.rpmLimit > 0 { WindowAfter(p.rpm, ms, i.rpmLimit); }
    LeaseSet.ReleaseUndoes(LeaseSet.Holding(l, ms), p.leases, ms, id, Sec(ms) + ttl);
  }

  lemma EnteredKeeps(p: Plane, i: TenantInfo, remaining: int, id: string, ms: nat, ttl: nat)
    requires ttl > 0 && id !in p.leases.scores
    ensures
      var o := Entered(p, i, remaining, id, ms, ttl);
      && o.plane.used == p.used && AllOrNone(p.leases, p.rpm, o, i, id, ms, ttl)
      && (o.response.Granted? <==> Fits(p.leases, p.rpm, i, ms))
  {
    if i.maxConcurrency > 0 {
      LeaseSet.AcquireAdds(p.leases, ms, ttl, id, i.maxConcurrency);
      var r := LeaseSet.Acquire(p.leases, ms, ttl, id, i.maxConcurrency);
      if r.count > 0 {
        MeteredKeeps(p.(leases := r.leases), p.leases, i, remaining, id, ms, ttl);
      }
    }
  }

  /** As many tokens as are left, up to 4096; and 4096 if nothing is left. */
  predicate Allots(remaining: int, tokens: int) {
    && tokens <= 4096
    && (remaining > 0 ==> tokens <= remaining && (tokens == 4096 || tokens == remaining))
    && (remaining <= 0 ==> tokens == 4096)
  }

  /** A grant past the daily gate is for its own lease and allots what is left of the day. */
  lemma GrantAllows(p: Plane, i: TenantInfo, remaining: int, id: string, ms: nat, ttl: nat)
    ensures
      var r := Entered(p, i, remaining, id, ms, ttl).response;
      r.Granted? ==> r.lease == id && Allots(remaining, r.maxTokens)
  {
  }

  /** The pipeline is all or nothing, and no authorization moves a daily counter. */
  lemma AllOrNothing(p: Plane, info: Option<TenantInfo>, req: Request, id: string, ms: nat, ttl: nat)
    requires ttl > 0 && id !in p.leases.scores
    ensures
      var o := Authorize(p, info, req, id, ms, ttl);
      && (forall day :: Used(o.plane.used, day) == Used(p.used, day))
      && (info.Some? ==> AllOrNone(p.leases, p.rpm, o, info.value, id, ms, ttl))
      && (info.None? ==> o.plane == p && o.log == [] && o.response.Refused?)
  {
    if Gate(info, req).None? && Used(p.used, Day(ms)) <= info.value.dailyLimit {
      var used := Used(p.used, Day(ms));
      EnteredKeeps(p.(used := p.used[Day(ms) := used]), info.value, Max(0, info.value.dailyLimit - used), id, ms, ttl);
    }
  }

  /** What was counted on the day of an instant. */
  predicate CountedToday(p: Plane, ms: nat, n: int) {
    var day := ms / 86_400_000;
    n == if day in p.used then p.used[day] else 0
  }

  /** An empty list allows everything, and a request that names nothing needs no entry. */
  predicate Listed(names: seq<string>, name: string) {
    names == [] || name == "" || name in names
  }

  /** The key is known, its tenant is active, and the request names no other tenant. */
  predicate Known(info: Option<TenantInfo>, req: Request) {
    req.apiKey != "" && info.Some? && info.value.active && req.tenant in {"", info.value.tenant}
  }

  predicate Entitled(info: Option<TenantInfo>, req: Request) {
    && Known(info, req)
    && Listed(info.value.modules, req.targetModule) && Listed(info.value.models, req.model)
  }

  /** When a request is granted, and how many tokens it gets: as many as are left of the day, up to 4096.
      A counter exactly at its cap still passes, and then the allowance is 4096, not the nothing that is
      left. */
  lemma GrantedIff(p: Plane, info: Option<TenantInfo>, req: Request, id: string, ms: nat, ttl: nat, used: int)
    requires ttl > 0 && id !in p.leases.scores && CountedToday(p, ms, used)
    ensures
      var r := Authorize(p, info, req, id, ms, ttl).response;
      && (r.Granted? <==>
            && Entitled(info, req) && 0 < info.value.dailyLimit && used <= info.value.dailyLimit
            && Fits(p.leases, p.rpm, info.value, ms))
      && (r.Granted? ==>
            var limit := info.value.dailyLimit;
            && r.lease == id && r.maxTokens <= 4096
            && (used < limit ==> used + r.maxTokens <= limit && (r.maxTokens == 4096 || used + r.maxTokens == limit))
            && (used == limit ==> r.maxTokens == 4096))
  {
    if Gate(info, req).None? && used <= info.value.dailyLimit {
      EnteredKeeps(p.(used := p.used[Day(ms) := used]), info.value, Max(0, info.value.dailyLimit - used), id, ms, ttl);
    }
  }

  /** Each refusal is given for its own reason, and always for it, the first one in this order: key and
      tenant, module, model, daily budget, leases, request window. */
  lemma RefusedFor(p: Plane, info: Option<TenantInfo>, req: Request, id: string, ms: nat, ttl: nat, used: int)
    requires ttl > 0 && id !in p.leases.scores && CountedToday(p, ms, used)
    ensures
      var r := Authorize(p, info, req, id, ms, ttl).response;
      && (r == Refused(InvalidApiKey) <==>
            req.apiKey == "" || info.None? || (info.value.active && req.tenant !in {"", info.value.tenant}))
      && (r == Refused(TenantDisabled) <==> req.apiKey != "" && info.Some? && !info.value.active)
      && (r == Refused(ModuleUnauthorized) <==> Known(info, req) && !Listed(info.value.modules, req.targetModule))
      && (r == Refused(ModelUnauthorized) <==>
            && Known(info, req) && Listed(info.value.modules, req.targetModule)
            && !Listed(info.value.models, req.model))
    ensures
      var r := Authorize(p, info, req, id, ms, ttl).response;
      && (r == Refused(DailyQuota) <==>
            Entitled(info, req) && (info.value.dailyLimit <= 0 || used > info.value.dailyLimit))
      && (r == Refused(ConcurrencyLimit) <==>
            && Entitled(info, req) && 0 < info.value.dailyLimit && used <= info.value.dailyLimit
            && |LeaseSet.Holding(p.leases, ms)| >= info.value.maxConcurrency)
      && (r == Refused(RateLimit) <==>
            && Entitled(info, req) && 0 < info.value.dailyLimit && used <= info.value.dailyLimit
            && |LeaseSet.Holding(p.leases, ms)| < info.value.maxConcurrency
            && |RpmWindow.Kept(p.rpm, ms)| >= info.value.rpmLimit > 0)
  {
    if Gate(info, req).None? && info.value.maxConcurrency > 0 {
      LeaseSet.AcquireAdds(p.leases, ms, ttl, id, info.value.maxConcurrency);
    }
  }

  // ----- Whose lease -----

  lemma PrefixUnique(a: string, b: string, lease: string)
    requires ':' !in a && ':' !in b && a + ":" <= lease && b + ":" <= lease && |a| <= |b|
    ensures a == b
  {
    assert (a + ":")[|a|] == lease[|a|] == ':';
    assert forall i :: 0 <= i < |a| ==> a[i] == (a + ":")[i] == lease[i] == (b + ":")[i] == b[i];
  }

  /** A lease made for a tenant belongs to it, and to no other tenant. */
  lemma LeaseHasOneTenant(lease: string, a: string, b: string, rest: string)
    requires ':' !in a && ':' !in b
    ensures Belongs(a + ":" + rest, a)
    ensures Belongs(lease, a) && Belongs(lease, b) ==> a == b
    ensures !Belongs("", a)
  {
    assert (a + ":" + rest)[..|a + ":"|] == a + ":";
    if Belongs(lease, a) && Belongs(lease, b) {
      if |a| <= |b| { PrefixUnique(a, b, lease); } else { PrefixUnique(b, a, lease); }
    }
  }
}
