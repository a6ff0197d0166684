/**
 Runs of the authorization plane for one tenant: authorizations, releases and usage reports in any
 order (fusion_identity/grpc_servicer.py, fusion_identity/cache.py). Calls are atomic, except that
 an authorization may also be split where its handler waits between the daily counter and the
 lease script (Reserve, then Enter).
 */
module QuotaPlane {
  import opened Util
  import opened Servicer
  import LeaseSet
  import RpmWindow

  datatype Call =
    | Auth(info: TenantInfo, req: Request, id: string)
    | Reserve(info: TenantInfo, req: Request)
    | Enter(info: TenantInfo, slot: nat, id: string)
    | Give(lease: string)
    | Tell(lease: string, tokens: int, releaseAfter: bool, ledgerOk: bool)

  datatype Timed = Timed(call: Call, ms: nat)

  /** The plane with the lease book, the lease log, the token allowance granted with each lease, and for
      each authorization between Reserve and Enter what was left of the day. */
  datatype State = State(w: LeaseSet.World, used: map<int, int>, rpm: RpmWindow.RpmKey, log: seq<Entry>,
                         allowance: map<string, int>, waiting: seq<int>)

  const Start := State(LeaseSet.Start, map[], RpmWindow.Missing, [], map[], [])

  function PlaneOf(s: State): Plane {
    Plane(s.w.l, s.used, s.rpm)
  }

  /** What was left of the day when the authorization in a slot passed the daily gate. */
  function Promised(s: State, slot: nat): int {
    if slot < |s.waiting| then s.waiting[slot] else 0
  }

  function Without(waiting: seq<int>, slot: nat): seq<int> {
    if slot < |waiting| then waiting[..slot] + waiting[slot + 1..] else waiting
  }

  /** What a call does to the plane, and what it writes to the lease log. */
  function Effect(s: State, tenant: string, e: Timed, ttl: nat): Servicer.Effect {
    match e.call
    case Auth(info, req, id) =>
      var o := Authorize(PlaneOf(s), Some(info), req, id, e.ms, ttl);
      Servicer.Effect(o.plane, o.log)
    case Reserve(_, _) => Servicer.Effect(PlaneOf(s).(used := s.used[Day(e.ms) := Used(s.used, Day(e.ms))]), [])
    case Enter(info, slot, id) =>
      var o := Entered(PlaneOf(s), info, Promised(s, slot), id, e.ms, ttl);
      Servicer.Effect(o.plane, o.log)
    case Give(lease) =>
      if Belongs(lease, tenant) then Release(PlaneOf(s), tenant, lease, e.ms) else Servicer.Effect(PlaneOf(s), [])
    case Tell(lease, tokens, after, ledgerOk) =>
      if lease != "" && !Belongs(lease, tenant) then Servicer.Effect(PlaneOf(s), [])
      else Report(PlaneOf(s), tenant, lease, tokens, after, ledgerOk, e.ms)
  }

  /** The lease scripts an entering authorization runs. */
  function Entering(rpm: RpmWindow.RpmKey, l: LeaseSet.Leases, i: TenantInfo, id: string, ms: nat,
                    ttl: nat): seq<LeaseSet.Timed> {
    if i.maxConcurrency <= 0 then []
    else
      var take := LeaseSet.Timed(LeaseSet.TryAcquire(id, i.maxConcurrency), ms);
      if LeaseSet.Acquire(l, ms, ttl, id, i.maxConcurrency).count > 0 && i.rpmLimit > 0
        && !RpmWindow.Script(rpm, ms, i.rpmLimit).ok
      then [take, LeaseSet.Timed(LeaseSet.TryRelease(id), ms)]
      else [take]
  }

  function Scripts(s: State, tenant: string, e: Timed, ttl: nat): seq<LeaseSet.Timed> {
    match e.call
    case Auth(info, req, id) =>
      if Gate(Some(info), req).Some? || Used(s.used, Day(e.ms)) > info.dailyLimit then []
      else Entering(s.rpm, s.w.l, info, id, e.ms, ttl)
    case Reserve(_, _) => []
    case Enter(info, _, id) => Entering(s.rpm, s.w.l, info, id, e.ms, ttl)
    case Give(lease) => if Belongs(lease, tenant) then [LeaseSet.Timed(LeaseSet.TryRelease(lease), e.ms)] else []
    case Tell(lease, _, after, _) =>
      if Belongs(lease, tenant) && after then [LeaseSet.Timed(LeaseSet.TryRelease(lease), e.ms)] else []
  }

  /** What an authorization answers. */
  function Respond(s: State, e: Timed, ttl: nat): Response
    requires e.call.Auth? || e.call.Enter?
  {
    match e.call
    case Auth(info, req, id) => Authorize(PlaneOf(s), Some(info), req, id, e.ms, ttl).response
    case Enter(info, slot, id) => Entered(PlaneOf(s), info, Promised(s, slot), id, e.ms, ttl).response
  }

  function Noted(allowance: map<string, int>, r: Response): map<string, int> {
    if r.Granted? then allowance[r.lease := r.maxTokens] else allowance
  }

  function Remaining(s: State, info: TenantInfo, ms: nat): int {
    Max(0, info.dailyLimit - Used(s.used, Day(ms)))
  }

  function Step(s: State, tenant: string, e: Timed, ttl: nat): State {
    var f := Effect(s, tenant, e, ttl);
    var allowance := if e.call.Auth? || e.call.Enter? then Noted(s.allowance, Respond(s, e, ttl)) else s.allowance;
    var waiting :=
      if e.call.Reserve? then s.waiting + [Remaining(s, e.call.info, e.ms)]
      else if e.call.Enter? then Without(s.waiting, e.call.slot) else s.waiting;
    State(LeaseSet.After(s.w, Scripts(s, tenant, e, ttl), ttl), f.plane.used, f.plane.rpm,
          s.log + f.log, allowance, waiting)
  }

  /** One authorization leaves its slot; the others keep what they were promised, in their order. */
  lemma WithoutOne(waiting: seq<int>, slot: nat, i: nat)
    requires slot < |waiting| && i < |waiting| - 1
    ensures |Without(waiting, slot)| == |waiting| - 1
    ensures Without(waiting, slot)[i] == waiting[if i < slot then i else i + 1]
  {
  }

  /** The allowance of one lease, and nothing else, was noted for so much left of the day. */
  predicate Allotted(before: map<string, int>, after: map<string, int>, id: string, remaining: int) {
    id in after && after == before[id := after[id]] && Allots(remaining, after[id])
  }

  /** What an authorization that is granted adds to the allowances; one that waited still gets what was
      left when it passed the daily gate. */
  lemma AllowanceNoted(s: State, tenant: string, e: Timed, ttl: nat)
    requires e.call.Auth? || e.call.Enter?
    ensures
      var remaining := if e.call.Enter? then Promised(s, e.call.slot) else Remaining(s, e.call.info, e.ms);
      var after := Step(s, tenant, e, ttl).allowance;
      if Respond(s, e, ttl).Granted? then Allotted(s.allowance, after, e.call.id, remaining) else after == s.allowance
  {
    match e.call
    case Auth(info, req, id) =>
      var used := Used(s.used, Day(e.ms));
      GrantAllows(PlaneOf(s).(used := s.used[Day(e.ms) := used]), info, Max(0, info.dailyLimit - used), id, e.ms, ttl);
    case Enter(info, slot, id) => GrantAllows(PlaneOf(s), info, Promised(s, slot), id, e.ms, ttl);
  }

  /** Fresh lease ids, information of this tenant with a concurrency limit up to `limit`; a request
      waits only after passing the gate and the counter, and enters only after waiting. */
  predicate Allowed(s: State, tenant: string, e: Timed, limit: nat) {
    match e.call
    case Auth(info, _, id) => id !in s.w.book && info.tenant == tenant && info.maxConcurrency <= limit
    case Reserve(info, req) => Gate(Some(info), req).None? && Used(s.used, Day(e.ms)) <= info.dailyLimit
    case Enter(info, slot, id) =>
      slot < |s.waiting| && id !in s.w.book && info.tenant == tenant && info.maxConcurrency <= limit
    case _ => true
  }

  lemma OneScript(w: LeaseSet.World, e: LeaseSet.Timed, ttl: nat)
    ensures LeaseSet.After(w, [e], ttl) == LeaseSet.Step(w, e, ttl)
  {
  }

  lemma TwoScripts(w: LeaseSet.World, e: LeaseSet.Timed, f: LeaseSet.Timed, ttl: nat)
    ensures LeaseSet.After(w, [e, f], ttl) == LeaseSet.Step(LeaseSet.Step(w, e, ttl), f, ttl)
  {
    assert [e, f][1..] == [f];
    OneScript(LeaseSet.Step(w, e, ttl), f, ttl);
  }

  lemma EnteringAgrees(s: State, i: TenantInfo, remaining: int, id: string, ms: nat, ttl: nat, used: map<int, int>)
    ensures LeaseSet.After(s.w, Entering(s.rpm, s.w.l, i, id, ms, ttl), ttl).l ==
            Entered(PlaneOf(s).(used := used), i, remaining, id, ms, ttl).plane.leases
  {
    var take := LeaseSet.Timed(LeaseSet.TryAcquire(id, i.maxConcurrency), ms);
    var back := LeaseSet.Timed(LeaseSet.TryRelease(id), ms);
    LeaseSet.StepRunsScript(s.w, take, ttl);
    if |Entering(s.rpm, s.w.l, i, id, ms, ttl)| == 1 {
      OneScript(s.w, take, ttl);
    } else if |Entering(s.rpm, s.w.l, i, id, ms, ttl)| == 2 {
      TwoScripts(s.w, take, back, ttl);
      LeaseSet.StepRunsScript(LeaseSet.Step(s.w, take, ttl), back, ttl);
    }
  }

  /** The scripts of a call leave the lease set as the call does. */
  lemma ScriptsAgree(s: State, tenant: string, e: Timed, ttl: nat)
    ensures Step(s, tenant, e, ttl).w.l == Effect(s, tenant, e, ttl).plane.leases
  {
    match e.call
    case Auth(info, req, id) =>
      var used := Used(s.used, Day(e.ms));
      EnteringAgrees(s, info, Max(0, info.dailyLimit - used), id, e.ms, ttl, s.used[Day(e.ms) := used]);
    case Enter(info, slot, id) => EnteringAgrees(s, info, Promised(s, slot), id, e.ms, ttl, s.used);
    case Reserve(_, _) =>
    case Give(lease) => OneScript(s.w, LeaseSet.Timed(LeaseSet.TryRelease(lease), e.ms), ttl);
    case Tell(lease, _, _, _) => OneScript(s.w, LeaseSet.Timed(LeaseSet.TryRelease(lease), e.ms), ttl);
  }

  // ----- The lease log -----

  /** What the log says about one lease. */
  function Entries(log: seq<Entry>, id: string): seq<Action> {
    if log == [] then [] else Entries(Init(log), id) + if Last(log).lease == id then [Last(log).action] else []
  }

  /** What the log should say about it. */
  function Story(book: LeaseSet.Book, id: string): seq<Action> {
    if id !in book then [] else if book[id].fate == LeaseSet.Released then [Acquired, Freed] else [Acquired]
  }

  ghost predicate Faithful(s: State) {
    forall id :: Entries(s.log, id) == Story(s.w.book, id)
  }

  lemma {:induction false} EntriesConcat(a: seq<Entry>, b: seq<Entry>, id: string)
    ensures Entries(a + b, id) == Entries(a, id) + Entries(b, id)
  {
    if b == [] {
      assert a + b == a;
    } else {
      EntriesConcat(a, Init(b), id);
      assert Init(a + b) == a + Init(b);
    }
  }

  /** What a lease script adds to the story of one lease. */
  function Chapter(w: LeaseSet.World, e: LeaseSet.Timed, id: string, ttl: nat): seq<Action> {
    match e.op
    case TryAcquire(x, _) => if x == id && LeaseSet.Result(w, e, ttl) > 0 then [Acquired] else []
    case TryRelease(x) => if x == id && LeaseSet.Result(w, e, ttl) >= 0 then [Freed] else []
    case _ => []
  }

  lemma StoryGrows(w: LeaseSet.World, e: LeaseSet.Timed, id: string, now: nat, ttl: nat, limit: nat)
    requires LeaseSet.Fits(w.l, w.book, id, now) && now <= e.ms && LeaseSet.Allowed(w, e, limit)
    ensures Story(LeaseSet.Step(w, e, ttl).book, id) == Story(w.book, id) + Chapter(w, e, id, ttl)
  {
    LeaseSet.PassedFits(w, id, now, e.ms);
  }

  function Chapters(w: LeaseSet.World, ops: seq<LeaseSet.Timed>, id: string, ttl: nat): seq<Action>
    decreases |ops|
  {
    if ops == [] then [] else Chapter(w, ops[0], id, ttl) + Chapters(LeaseSet.Step(w, ops[0], ttl), ops[1..], id, ttl)
  }

  lemma {:induction false} StoryOfRun(w: LeaseSet.World, ops: seq<LeaseSet.Timed>, id: string, now: nat, ttl: nat,
                                      limit: nat)
    requires LeaseSet.Inv(w, now, ttl, limit) && LeaseSet.Legal(w, ops, now, ttl, limit)
    ensures Story(LeaseSet.After(w, ops, ttl).book, id) == Story(w.book, id) + Chapters(w, ops, id, ttl)
    decreases |ops|
  {
    if ops != [] {
      var w' := LeaseSet.Step(w, ops[0], ttl);
      assert LeaseSet.Fits(w.l, w.book, id, now);
      StoryGrows(w, ops[0], id, now, ttl, limit);
      LeaseSet.StepKeeps(w, ops[0], now, ttl, limit);
      StoryOfRun(w', ops[1..], id, ops[0].ms, ttl, limit);
      assert Story(w.book, id) + Chapter(w, ops[0], id, ttl) + Chapters(w', ops[1..], id, ttl) ==
             Story(w.book, id) + (Chapter(w, ops[0], id, ttl) + Chapters(w', ops[1..], id, ttl));
    }
  }

  lemma OneChapter(w: LeaseSet.World, e: LeaseSet.Timed, id: string, ttl: nat)
    ensures Chapters(w, [e], id, ttl) == Chapter(w, e, id, ttl)
  {
  }

  lemma TwoChapters(w: LeaseSet.World, e: LeaseSet.Timed, f: LeaseSet.Timed, id: string, ttl: nat)
    ensures Chapters(w, [e, f], id, ttl) == Chapter(w, e, id, ttl) + Chapter(LeaseSet.Step(w, e, ttl), f, id, ttl)
  {
    assert [e, f][1..] == [f];
    OneChapter(LeaseSet.Step(w, e, ttl), f, id, ttl);
  }

  /** The log entries of one or two leases, spelled out. */
  lemma ShortLog(e: Entry, f: Entry, id: string)
    ensures Entries([e], id) == if e.lease == id then [e.action] else []
    ensures Entries([e, f], id) == Entries([e], id) + Entries([f], id)
  {
    assert Init([e]) == [] && Init([e, f]) == [e] && Init([f]) == [];
  }

  lemma EnteringTells(s: State, i: TenantInfo, remaining: int, id: string, ms: nat, ttl: nat, used: map<int, int>,
                      x: string)
    requires ttl > 0
    ensures Entries(Entered(PlaneOf(s).(used := used), i, remaining, id, ms, ttl).log, x) ==
            Chapters(s.w, Entering(s.rpm, s.w.l, i, id, ms, ttl), x, ttl)
  {
    var take := LeaseSet.Timed(LeaseSet.TryAcquire(id, i.maxConcurrency), ms);
    var back := LeaseSet.Timed(LeaseSet.TryRelease(id), ms);
    ShortLog(Entry(i.tenant, id, Acquired), Entry(i.tenant, id, Freed), x);
    ShortLog(Entry(i.tenant, id, Freed), Entry(i.tenant, id, Freed), x);
    if |Entering(s.rpm, s.w.l, i, id, ms, ttl)| == 1 {
      OneChapter(s.w, take, x, ttl);
    } else if |Entering(s.rpm, s.w.l, i, id, ms, ttl)| == 2 {
      LeaseSet.StepRunsScript(s.w, take, ttl);
      LeaseSet.AcquireAdds(s.w.l, ms, ttl, id, i.maxConcurrency);
      TwoChapters(s.w, take, back, x, ttl);
    }
  }

  /** A call logs exactly what its scripts did. */
  lemma LogTells(s: State, tenant: string, e: Timed, ttl: nat, x: string)
    requires ttl > 0
    ensures Entries(Effect(s, tenant, e, ttl).log, x) == Chapters(s.w, Scripts(s, tenant, e, ttl), x, ttl)
  {
    match e.call
    case Auth(_, _, _) => AuthTells(s, tenant, e, ttl, x);
    case Enter(info, slot, id) => EnteringTells(s, info, Promised(s, slot), id, e.ms, ttl, s.used, x);
    case Reserve(_, _) =>
    case Give(lease) => GivingTells(s, tenant, lease, e.ms, ttl, x);
    case Tell(lease, _, _, _) => TellingTells(s, tenant, e, ttl, x);
  }

  lemma AuthTells(s: State, tenant: string, e: Timed, ttl: nat, x: string)
    requires ttl > 0 && e.call.Auth?
    ensures Entries(Effect(s, tenant, e, ttl).log, x) == Chapters(s.w, Scripts(s, tenant, e, ttl), x, ttl)
  {
    var used := Used(s.used, Day(e.ms));
    EnteringTells(s, e.call.info, Max(0, e.call.info.dailyLimit - used), e.call.id, e.ms, ttl,
      s.used[Day(e.ms) := used], x);
  }

  lemma TellingTells(s: State, tenant: string, e: Timed, ttl: nat, x: string)
    requires e.call.Tell?
    ensures Entries(Effect(s, tenant, e, ttl).log, x) == Chapters(s.w, Scripts(s, tenant, e, ttl), x, ttl)
  {
    GivingTells(s, tenant, e.call.lease, e.ms, ttl, x);
  }

  lemma GivingTells(s: State, tenant: string, lease: string, ms: nat, ttl: nat, x: string)
    ensures Chapters(s.w, [LeaseSet.Timed(LeaseSet.TryRelease(lease), ms)], x, ttl) ==
            Entries(if LeaseSet.Release(s.w.l, ms, lease).count >= 0 then [Entry(tenant, lease, Freed)] else [], x)
  {
    ShortLog(Entry(tenant, lease, Freed), Entry(tenant, lease, Freed), x);
    OneChapter(s.w, LeaseSet.Timed(LeaseSet.TryRelease(lease), ms), x, ttl);
  }

  // ----- Runs -----

  predicate Legal(s: State, tenant: string, run: seq<Timed>, now: nat, ttl: nat, limit: nat)
    decreases |run|
  {
    if run == [] then true
    else
      now <= run[0].ms && Allowed(s, tenant, run[0], limit)
      && Legal(Step(s, tenant, run[0], ttl), tenant, run[1..], run[0].ms, ttl, limit)
  }

  function After(s: State, tenant: string, run: seq<Timed>, ttl: nat): State
    decreases |run|
  {
    if run == [] then s else After(Step(s, tenant, run[0], ttl), tenant, run[1..], ttl)
  }

  function Clock(run: seq<Timed>, now: nat): nat {
    if run == [] then now else run[|run| - 1].ms
  }

  lemma ScriptsLegal(s: State, tenant: string, e: Timed, now: nat, ttl: nat, limit: nat)
    requires now <= e.ms && Allowed(s, tenant, e, limit)
    ensures LeaseSet.Legal(s.w, Scripts(s, tenant, e, ttl), now, ttl, limit)
    ensures Scripts(s, tenant, e, ttl) != [] ==> LeaseSet.Clock(Scripts(s, tenant, e, ttl), now) == e.ms
  {
    var ops := Scripts(s, tenant, e, ttl);
    if |ops| == 2 { assert ops[1..] == [ops[1]]; }
  }

  lemma StepKeeps(s: State, tenant: string, e: Timed, now: nat, ttl: nat, limit: nat)
    requires ttl > 0 && LeaseSet.Inv(s.w, now, ttl, limit) && Faithful(s)
    requires now <= e.ms && Allowed(s, tenant, e, limit)
    ensures LeaseSet.Inv(Step(s, tenant, e, ttl).w, e.ms, ttl, limit) && Faithful(Step(s, tenant, e, ttl))
  {
    var ops := Scripts(s, tenant, e, ttl);
    var s' := Step(s, tenant, e, ttl);
    ScriptsLegal(s, tenant, e, now, ttl, limit);
    LeaseSet.RunKeeps(s.w, ops, now, ttl, limit);
    LeaseSet.InvLater(s'.w, LeaseSet.Clock(ops, now), e.ms, ttl, limit);
    forall id ensures Entries(s'.log, id) == Story(s'.w.book, id) {
      EntriesConcat(s.log, Effect(s, tenant, e, ttl).log, id);
      LogTells(s, tenant, e, ttl, id);
      StoryOfRun(s.w, ops, id, now, ttl, limit);
    }
  }

  lemma {:induction false} RunKeeps(s: State, tenant: string, run: seq<Timed>, now: nat, ttl: nat, limit: nat)
    requires ttl > 0 && LeaseSet.Inv(s.w, now, ttl, limit) && Faithful(s) && Legal(s, tenant, run, now, ttl, limit)
    ensures LeaseSet.Inv(After(s, tenant, run, ttl).w, Clock(run, now), ttl, limit)
            && Faithful(After(s, tenant, run, ttl))
    decreases |run|
  {
    if run != [] {
      StepKeeps(s, tenant, run[0], now, ttl, limit);
      RunKeeps(Step(s, tenant, run[0], ttl), tenant, run[1..], run[0].ms, ttl, limit);
    }
  }

  /** In every run the log holds nothing about a lease, its acquire, or its acquire and then one release. */
  lemma LogIsOrderly(tenant: string, run: seq<Timed>, ttl: nat, limit: nat, id: string)
    requires ttl > 0 && Legal(Start, tenant, run, 0, ttl, limit)
    ensures
      var s := After(Start, tenant, run, ttl);
      && Entries(s.log, id) in {[], [Acquired], [Acquired, Freed]}
      && (Entries(s.log, id) == [] <==> id !in s.w.book)
      && (Entries(s.log, id) == [Acquired, Freed] <==> id in LeaseSet.Having(s.w.book, LeaseSet.Released))
  {
    RunKeeps(Start, tenant, run, 0, ttl, limit);
    assert Entries(After(Start, tenant, run, ttl).log, id) == Story(After(Start, tenant, run, ttl).w.book, id);
  }
}
