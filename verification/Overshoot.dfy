/**
 How far a day's token counter can pass its cap (fusion_identity/grpc_servicer.py:218-265,
 329-354; fusion_identity/cache.py:12-24, 164-193). The daily counter is only a gate: an
 authorization adds nothing to it, and the tokens arrive with the usage report. So what bounds the
 counter is the gate together with the leases that are still out.

 The callers are obliging: they report a lease once, while it lives, within the allowance that was
 granted with it, and give it back with the report.
 */
module Overshoot {
  import opened Util
  import opened Servicer
  import opened QuotaPlane
  import LeaseSet

  /** The callers' side of the bargain, and a daily cap up to `cap`. */
  predicate Obliging(s: State, tenant: string, e: QuotaPlane.Timed, cap: nat) {
    match e.call
    case Auth(info, _, _) => info.dailyLimit <= cap
    case Reserve(info, _) => info.dailyLimit <= cap
    case Tell(lease, tokens, after, _) =>
      && after && Belongs(lease, tenant) && lease in LeaseSet.Live(s.w.book, Sec(e.ms))
      && lease in s.allowance && tokens <= s.allowance[lease]
    case _ => true
  }

  /** Legal, obliging, and never more than k authorizations waiting between their two gates. */
  predicate Polite(s: State, tenant: string, run: seq<QuotaPlane.Timed>, now: nat, ttl: nat, cap: nat, limit: nat,
                   k: nat)
    decreases |run|
  {
    if run == [] then true
    else
      var s' := Step(s, tenant, run[0], ttl);
      && now <= run[0].ms && Allowed(s, tenant, run[0], limit) && Obliging(s, tenant, run[0], cap) && |s'.waiting| <= k
      && Polite(s', tenant, run[1..], run[0].ms, ttl, cap, limit, k)
  }

  /** The leases that may still report. */
  function Out(s: State, ms: nat): set<string> {
    LeaseSet.Live(s.w.book, Sec(ms))
  }

  function Roof(cap: nat, limit: nat, k: nat): int {
    cap + 4096 * (limit + k)
  }

  /** No allowance is more than the default. */
  predicate Modest(s: State) {
    forall id :: id in s.allowance ==> s.allowance[id] <= 4096
  }

  lemma ModestStep(s: State, tenant: string, e: QuotaPlane.Timed, ttl: nat)
    requires Modest(s)
    ensures Modest(Step(s, tenant, e, ttl))
  {
  }

  /** Today's counter with everything that may still be reported stays under the roof, every day's
      counter does, and no later day has begun. */
  ghost predicate Within(s: State, ms: nat, cap: nat, limit: nat, k: nat) {
    && Modest(s)
    && |s.waiting| <= k
    && Used(s.used, Day(ms)) + 4096 * (|Out(s, ms)| + |s.waiting|) <= Roof(cap, limit, k)
    && (forall d :: Used(s.used, d) <= Roof(cap, limit, k))
    && (forall d :: d > Day(ms) ==> Used(s.used, d) == 0)
  }

  lemma FewOut(s: State, now: nat, ms: nat, ttl: nat, limit: nat)
    requires LeaseSet.Inv(s.w, now, ttl, limit) && now <= ms
    ensures |Out(s, ms)| <= limit && Out(s, ms) == LeaseSet.Holding(s.w.l, ms).Keys
  {
    LeaseSet.LiveIsHeld(s.w, now, ms);
    SubsetCard(Out(s, ms), s.w.l.scores.Keys);
  }

  /** Waiting frees leases; a new day starts at zero with at most `limit` of them out. */
  lemma WithinLater(s: State, now: nat, ms: nat, ttl: nat, cap: nat, limit: nat, k: nat)
    requires LeaseSet.Inv(s.w, now, ttl, limit) && Within(s, now, cap, limit, k) && now <= ms
    ensures Within(s, ms, cap, limit, k)
  {
    FewOut(s, now, ms, ttl, limit);
    SubsetCard(Out(s, ms), Out(s, now));
    assert Day(now) <= Day(ms);
  }

  /** An authorization adds at most its own lease, and only while the counter is within the cap. */
  lemma AuthCounts(s: State, tenant: string, e: QuotaPlane.Timed, ttl: nat, cap: nat, limit: nat)
    requires ttl > 0 && LeaseSet.Inv(s.w, e.ms, ttl, limit) && Faithful(s)
    requires e.call.Auth? && Allowed(s, tenant, e, limit) && Obliging(s, tenant, e, cap)
    ensures
      var s' := Step(s, tenant, e, ttl);
      && (forall d :: Used(s'.used, d) == Used(s.used, d))
      && (Out(s', e.ms) == Out(s, e.ms) || (Used(s.used, Day(e.ms)) <= cap && |Out(s', e.ms)| <= limit))
  {
    var s' := Step(s, tenant, e, ttl);
    StepKeeps(s, tenant, e, e.ms, ttl, limit);
    FewOut(s, e.ms, e.ms, ttl, limit);
    FewOut(s', e.ms, e.ms, ttl, limit);
    ScriptsAgree(s, tenant, e, ttl);
    FreshId(s, e.ms, ttl, limit, e.call.id);
    AllOrNothing(PlaneOf(s), Some(e.call.info), e.call.req, e.call.id, e.ms, ttl);
  }

  lemma ReserveCounts(s: State, tenant: string, e: QuotaPlane.Timed, ttl: nat, cap: nat, limit: nat)
    requires e.call.Reserve? && Allowed(s, tenant, e, limit) && Obliging(s, tenant, e, cap)
    ensures
      var s' := Step(s, tenant, e, ttl);
      s'.w == s.w && Used(s.used, Day(e.ms)) <= cap && forall d :: Used(s'.used, d) == Used(s.used, d)
  {
  }

  /** One that waited adds at most its own lease, whatever the counter says by then. */
  lemma EnterCounts(s: State, tenant: string, e: QuotaPlane.Timed, ttl: nat, limit: nat)
    requires ttl > 0 && LeaseSet.Inv(s.w, e.ms, ttl, limit) && Faithful(s)
    requires e.call.Enter? && Allowed(s, tenant, e, limit)
    ensures
      var s' := Step(s, tenant, e, ttl);
      s'.used == s.used && |Out(s', e.ms)| <= |Out(s, e.ms)| + 1
  {
    var s' := Step(s, tenant, e, ttl);
    StepKeeps(s, tenant, e, e.ms, ttl, limit);
    FewOut(s, e.ms, e.ms, ttl, limit);
    FewOut(s', e.ms, e.ms, ttl, limit);
    ScriptsAgree(s, tenant, e, ttl);
    FreshId(s, e.ms, ttl, limit, e.call.id);
    EnteredKeeps(PlaneOf(s), e.call.info, Promised(s, e.call.slot), e.call.id, e.ms, ttl);
    SubsetCard(Out(s', e.ms), Out(s, e.ms) + {e.call.id});
  }

  /** Giving back takes no tokens and adds no lease. */
  lemma GiveCounts(s: State, tenant: string, e: QuotaPlane.Timed, ttl: nat, limit: nat)
    requires ttl > 0 && LeaseSet.Inv(s.w, e.ms, ttl, limit) && Faithful(s)
    requires e.call.Give? && Allowed(s, tenant, e, limit)
    ensures
      var s' := Step(s, tenant, e, ttl);
      s'.used == s.used && |Out(s', e.ms)| <= |Out(s, e.ms)|
  {
    var s' := Step(s, tenant, e, ttl);
    StepKeeps(s, tenant, e, e.ms, ttl, limit);
    FewOut(s, e.ms, e.ms, ttl, limit);
    FewOut(s', e.ms, e.ms, ttl, limit);
    ScriptsAgree(s, tenant, e, ttl);
    SubsetCard(Out(s', e.ms), Out(s, e.ms));
  }

  /** A report counts its tokens today and takes its lease away. */
  lemma ReportCounts(s: State, tenant: string, e: QuotaPlane.Timed, ttl: nat, cap: nat, limit: nat)
    requires ttl > 0 && LeaseSet.Inv(s.w, e.ms, ttl, limit) && Faithful(s)
    requires e.call.Tell? && Allowed(s, tenant, e, limit) && Obliging(s, tenant, e, cap)
    ensures
      var s' := Step(s, tenant, e, ttl);
      && s'.used == Counted(s.used, e.call.tokens, e.call.ledgerOk, Day(e.ms))
      && |Out(s', e.ms)| <= |Out(s, e.ms)| - 1
  {
    var s' := Step(s, tenant, e, ttl);
    StepKeeps(s, tenant, e, e.ms, ttl, limit);
    FewOut(s, e.ms, e.ms, ttl, limit);
    FewOut(s', e.ms, e.ms, ttl, limit);
    ScriptsAgree(s, tenant, e, ttl);
    SubsetCard(Out(s', e.ms), Out(s, e.ms) - {e.call.lease});
  }

  lemma CountedUsed(used: map<int, int>, tokens: int, ledgerOk: bool, day: int)
    ensures forall d ::
              Used(Counted(used, tokens, ledgerOk, day), d)
              == Used(used, d) + if d == day && ledgerOk then Max(0, tokens) else 0
  {
  }

  lemma StepWithin(s: State, tenant: string, e: QuotaPlane.Timed, ttl: nat, cap: nat, limit: nat, k: nat)
    requires ttl > 0 && LeaseSet.Inv(s.w, e.ms, ttl, limit) && Faithful(s) && Within(s, e.ms, cap, limit, k)
    requires Allowed(s, tenant, e, limit) && Obliging(s, tenant, e, cap) && |Step(s, tenant, e, ttl).waiting| <= k
    ensures Within(Step(s, tenant, e, ttl), e.ms, cap, limit, k)
  {
    FewOut(s, e.ms, e.ms, ttl, limit);
    ModestStep(s, tenant, e, ttl);
    match e.call
    case Auth(_, _, _) => AuthCounts(s, tenant, e, ttl, cap, limit);
    case Reserve(_, _) => ReserveCounts(s, tenant, e, ttl, cap, limit);
    case Enter(_, _, _) => EnterCounts(s, tenant, e, ttl, limit);
    case Give(_) => GiveCounts(s, tenant, e, ttl, limit);
    case Tell(_, tokens, _, ledgerOk) =>
      ReportCounts(s, tenant, e, ttl, cap, limit);
      CountedUsed(s.used, tokens, ledgerOk, Day(e.ms));
  }

  lemma {:induction false} RunWithin(s: State, tenant: string, run: seq<QuotaPlane.Timed>, now: nat, ttl: nat,
                                     cap: nat, limit: nat, k: nat)
    requires ttl > 0 && LeaseSet.Inv(s.w, now, ttl, limit) && Faithful(s) && Within(s, now, cap, limit, k)
    requires Polite(s, tenant, run, now, ttl, cap, limit, k)
    ensures Within(After(s, tenant, run, ttl), Clock(run, now), cap, limit, k)
    decreases |run|
  {
    if run != [] {
      WithinLater(s, now, run[0].ms, ttl, cap, limit, k);
      LeaseSet.InvLater(s.w, now, run[0].ms, ttl, limit);
      StepWithin(s, tenant, run[0], ttl, cap, limit, k);
      StepKeeps(s, tenant, run[0], now, ttl, limit);
      RunWithin(Step(s, tenant, run[0], ttl), tenant, run[1..], run[0].ms, ttl, cap, limit, k);
    }
  }

  /**
   In every run with obliging callers, a cap and a concurrency limit, the counter of every day stays
   within cap + 4096 * (limit + k), where k authorizations at most wait between the daily gate and
   the lease gate; with atomic authorizations k is 0. The stronger form counts what may still come.
   */
  lemma BoundedOvershoot(tenant: string, run: seq<QuotaPlane.Timed>, ttl: nat, cap: nat, limit: nat, k: nat)
    requires ttl > 0 && Polite(Start, tenant, run, 0, ttl, cap, limit, k)
    ensures
      var s := After(Start, tenant, run, ttl);
      var ms := Clock(run, 0);
      && Used(s.used, Day(ms)) + 4096 * (|Out(s, ms)| + |s.waiting|) <= cap + 4096 * (limit + k)
      && (forall d :: Used(s.used, d) <= cap + 4096 * (limit + k))
  {
    RunWithin(Start, tenant, run, 0, ttl, cap, limit, k);
  }

  lemma FreshId(s: State, now: nat, ttl: nat, limit: nat, id: string)
    requires LeaseSet.Inv(s.w, now, ttl, limit) && id !in s.w.book
    ensures id !in s.w.l.scores
  {
    assert LeaseSet.Fits(s.w.l, s.w.book, id, now);
  }

  // ----- The bound is reached -----

  function Bar(n: nat): string {
    if n == 0 then "" else Bar(n - 1) + "|"
  }

  lemma BarLength(n: nat)
    ensures |Bar(n)| == n
  {
  }

  function Id(tenant: string, n: nat): string {
    tenant + ":" + Bar(n)
  }

  function Info(tenant: string, cap: int, limit: int): TenantInfo {
    TenantInfo(tenant, true, [], [], limit, cap, 0)
  }

  function Ask(tenant: string, n: nat, cap: int, limit: int): QuotaPlane.Timed {
    QuotaPlane.Timed(Auth(Info(tenant, cap, limit), Request("key", "", "", ""), Id(tenant, n)), 0)
  }

  function Answer(lease: string, tokens: int): QuotaPlane.Timed {
    QuotaPlane.Timed(Tell(lease, tokens, true, true), 0)
  }

  /** A state at time 0 in which all leases are the tenant's, and the ids from n on are new. */
  ghost predicate Ready(s: State, tenant: string, n: nat, ttl: nat, limit: nat) {
    && LeaseSet.Inv(s.w, 0, ttl, limit) && Faithful(s) && (forall i :: 0 <= i < |s.waiting| ==> s.waiting[i] == 0)
    && (forall m: nat :: m >= n ==> Id(tenant, m) !in s.w.book)
    && (forall id :: id in Out(s, 0) ==> Belongs(id, tenant))
  }

  /** One lease script adds at most the id it acquires to the book. */
  lemma ScriptBook(w: LeaseSet.World, e: LeaseSet.Timed, ttl: nat, id: string)
    requires id in LeaseSet.Step(w, e, ttl).book && id !in w.book
    ensures e.op.TryAcquire? && e.op.id == id
  {
  }

  lemma BookKeys(s: State, tenant: string, e: QuotaPlane.Timed, ttl: nat, id: string)
    requires id in Step(s, tenant, e, ttl).w.book && id !in s.w.book
    ensures (e.call.Auth? || e.call.Enter?) && e.call.id == id
  {
    var ops := Scripts(s, tenant, e, ttl);
    if |ops| == 1 {
      assert ops == [ops[0]];
      OneScript(s.w, ops[0], ttl);
      ScriptBook(s.w, ops[0], ttl, id);
    } else if |ops| == 2 {
      assert ops == [ops[0], ops[1]];
      TwoScripts(s.w, ops[0], ops[1], ttl);
      var w' := LeaseSet.Step(s.w, ops[0], ttl);
      if id in w'.book { ScriptBook(s.w, ops[0], ttl, id); } else { ScriptBook(w', ops[1], ttl, id); }
    }
  }

  /** Ids after the n-th stay new when the n-th is used. */
  lemma StillNew(s: State, tenant: string, n: nat, e: QuotaPlane.Timed, ttl: nat, from: nat)
    requires forall m: nat :: m >= n ==> Id(tenant, m) !in s.w.book
    requires if e.call.Auth? || e.call.Enter? then e.call.id == Id(tenant, n) && from == n + 1 else from == n
    ensures forall m: nat :: m >= from ==> Id(tenant, m) !in Step(s, tenant, e, ttl).w.book
  {
    forall m: nat | m >= from ensures Id(tenant, m) !in Step(s, tenant, e, ttl).w.book {
      if Id(tenant, m) in Step(s, tenant, e, ttl).w.book { BookKeys(s, tenant, e, ttl, Id(tenant, m)); }
      BarLength(m);
      BarLength(n);
    }
  }

  lemma AskGrants(s: State, tenant: string, n: nat, ttl: nat, cap: nat, limit: nat)
    requires ttl > 0 && cap > 0 && Ready(s, tenant, n, ttl, limit)
    requires |Out(s, 0)| < limit && Used(s.used, 0) <= cap
    ensures
      var e := Ask(tenant, n, cap, limit);
      var s' := Step(s, tenant, e, ttl);
      && Allowed(s, tenant, e, limit) && Obliging(s, tenant, e, cap)
      && Ready(s', tenant, n + 1, ttl, limit)
      && Id(tenant, n) !in Out(s, 0) && Out(s', 0) == Out(s, 0) + {Id(tenant, n)}
      && Used(s'.used, 0) == Used(s.used, 0) && s'.waiting == s.waiting
      && Allotted(s.allowance, s'.allowance, Id(tenant, n), cap - Used(s.used, 0))
  {
    var e := Ask(tenant, n, cap, limit);
    StepKeeps(s, tenant, e, 0, ttl, limit);
    AskIsGranted(s, tenant, n, ttl, cap, limit);
    AskTakesOne(s, tenant, n, ttl, cap, limit);
    StillNew(s, tenant, n, e, ttl, n + 1);
  }

  lemma AskTakesOne(s: State, tenant: string, n: nat, ttl: nat, cap: nat, limit: nat)
    requires ttl > 0 && cap > 0 && Ready(s, tenant, n, ttl, limit)
    requires |Out(s, 0)| < limit && Used(s.used, 0) <= cap
    ensures
      var s' := Step(s, tenant, Ask(tenant, n, cap, limit), ttl);
      && Id(tenant, n) !in Out(s, 0) && Out(s', 0) == Out(s, 0) + {Id(tenant, n)}
      && Used(s'.used, 0) == Used(s.used, 0) && s'.waiting == s.waiting
  {
    var id := Id(tenant, n);
    var e := Ask(tenant, n, cap, limit);
    StepKeeps(s, tenant, e, 0, ttl, limit);
    FewOut(s, 0, 0, ttl, limit);
    FewOut(Step(s, tenant, e, ttl), 0, 0, ttl, limit);
    ScriptsAgree(s, tenant, e, ttl);
    FreshId(s, 0, ttl, limit, id);
    AllOrNothing(PlaneOf(s), Some(e.call.info), e.call.req, id, 0, ttl);
    AskIsGranted(s, tenant, n, ttl, cap, limit);
  }

  lemma AskIsGranted(s: State, tenant: string, n: nat, ttl: nat, cap: nat, limit: nat)
    requires ttl > 0 && cap > 0 && Ready(s, tenant, n, ttl, limit)
    requires |Out(s, 0)| < limit && Used(s.used, 0) <= cap
    ensures
      var e := Ask(tenant, n, cap, limit);
      && Respond(s, e, ttl).Granted?
      && Allotted(s.allowance, Step(s, tenant, e, ttl).allowance, Id(tenant, n), cap - Used(s.used, 0))
  {
    var e := Ask(tenant, n, cap, limit);
    FewOut(s, 0, 0, ttl, limit);
    FreshId(s, 0, ttl, limit, Id(tenant, n));
    assert |LeaseSet.Holding(s.w.l, 0).Keys| == |LeaseSet.Holding(s.w.l, 0)|;
    GrantedIff(PlaneOf(s), Some(e.call.info), e.call.req, Id(tenant, n), 0, ttl, Used(s.used, 0));
    AllowanceNoted(s, tenant, e, ttl);
  }

  lemma AnswerCounts(s: State, tenant: string, n: nat, lease: string, tokens: int, ttl: nat, cap: nat, limit: nat)
    requires ttl > 0 && Ready(s, tenant, n, ttl, limit) && lease in Out(s, 0)
    requires lease in s.allowance && 0 < tokens <= s.allowance[lease]
    ensures
      var e := Answer(lease, tokens);
      var s' := Step(s, tenant, e, ttl);
      && Allowed(s, tenant, e, limit) && Obliging(s, tenant, e, cap)
      && Ready(s', tenant, n, ttl, limit)
      && Out(s', 0) == Out(s, 0) - {lease}
      && Used(s'.used, 0) == Used(s.used, 0) + tokens && s'.waiting == s.waiting && s'.allowance == s.allowance
  {
    var e := Answer(lease, tokens);
    var s' := Step(s, tenant, e, ttl);
    StepKeeps(s, tenant, e, 0, ttl, limit);
    FewOut(s, 0, 0, ttl, limit);
    FewOut(s', 0, 0, ttl, limit);
    ScriptsAgree(s, tenant, e, ttl);
    StillNew(s, tenant, n, e, ttl, n);
  }

  function Queue(tenant: string, cap: int, limit: int): QuotaPlane.Timed {
    QuotaPlane.Timed(Reserve(Info(tenant, cap, limit), Request("key", "", "", "")), 0)
  }

  lemma QueueWaits(s: State, tenant: string, n: nat, ttl: nat, cap: nat, limit: nat)
    requires ttl > 0 && cap > 0 && Ready(s, tenant, n, ttl, limit) && Used(s.used, 0) == cap
    ensures
      var e := Queue(tenant, cap, limit);
      var s' := Step(s, tenant, e, ttl);
      && Allowed(s, tenant, e, limit) && Obliging(s, tenant, e, cap)
      && Ready(s', tenant, n, ttl, limit)
      && Out(s', 0) == Out(s, 0) && Used(s'.used, 0) == Used(s.used, 0)
      && |s'.waiting| == |s.waiting| + 1 && s'.allowance == s.allowance
  {
    StepKeeps(s, tenant, Queue(tenant, cap, limit), 0, ttl, limit);
  }

  function Come(tenant: string, n: nat, cap: int, limit: int): QuotaPlane.Timed {
    QuotaPlane.Timed(Enter(Info(tenant, cap, limit), 0, Id(tenant, n)), 0)
  }

  /** One that waited gets its lease whatever the counter says by then. */
  lemma ComeGrants(s: State, tenant: string, n: nat, ttl: nat, cap: nat, limit: nat)
    requires ttl > 0 && Ready(s, tenant, n, ttl, limit) && |s.waiting| > 0 && |Out(s, 0)| < limit
    ensures
      var e := Come(tenant, n, cap, limit);
      var s' := Step(s, tenant, e, ttl);
      && Allowed(s, tenant, e, limit) && Obliging(s, tenant, e, cap)
      && Ready(s', tenant, n + 1, ttl, limit)
      && Out(s', 0) == Out(s, 0) + {Id(tenant, n)}
      && Used(s'.used, 0) == Used(s.used, 0) && |s'.waiting| == |s.waiting| - 1
      && s'.allowance == s.allowance[Id(tenant, n) := 4096]
  {
    var id := Id(tenant, n);
    var e := Come(tenant, n, cap, limit);
    assert Promised(s, 0) == 0;
    var s' := Step(s, tenant, e, ttl);
    StepKeeps(s, tenant, e, 0, ttl, limit);
    FewOut(s, 0, 0, ttl, limit);
    FewOut(s', 0, 0, ttl, limit);
    ScriptsAgree(s, tenant, e, ttl);
    FreshId(s, 0, ttl, limit, id);
    assert |LeaseSet.Holding(s.w.l, 0).Keys| == |LeaseSet.Holding(s.w.l, 0)|;
    EnteredKeeps(PlaneOf(s), e.call.info, 0, id, 0, ttl);
    AllowanceNoted(s, tenant, e, ttl);
    StillNew(s, tenant, n, e, ttl, n + 1);
  }

  /** A polite run from s that leaves today's counter at the goal. */
  ghost predicate Reaches(s: State, tenant: string, run: seq<QuotaPlane.Timed>, ttl: nat, cap: nat, limit: nat,
                          k: nat, goal: int) {
    Polite(s, tenant, run, 0, ttl, cap, limit, k) && Used(After(s, tenant, run, ttl).used, 0) == goal
  }

  lemma Prepend(s: State, tenant: string, e: QuotaPlane.Timed, run: seq<QuotaPlane.Timed>, ttl: nat, cap: nat,
                limit: nat, k: nat, goal: int)
    requires e.ms == 0 && Allowed(s, tenant, e, limit) && Obliging(s, tenant, e, cap)
             && |Step(s, tenant, e, ttl).waiting| <= k
    requires Reaches(Step(s, tenant, e, ttl), tenant, run, ttl, cap, limit, k, goal)
    ensures Reaches(s, tenant, [e] + run, ttl, cap, limit, k, goal)
  {
    assert ([e] + run)[1..] == run;
  }

  /** What today's counter comes to when all that is out or waiting reports the largest allowance. */
  function Goal(s: State): int {
    Used(s.used, 0) + 4096 * (|Out(s, 0)| + |s.waiting|)
  }

  /** Everything that is out was granted the largest allowance. */
  predicate Ample(s: State) {
    forall id :: id in Out(s, 0) ==> id in s.allowance && s.allowance[id] == 4096
  }

  /** Reporting a full allowance leaves the goal where it is. */
  lemma AnswerKeepsGoal(s: State, tenant: string, n: nat, lease: string, ttl: nat, cap: nat, limit: nat)
    requires ttl > 0 && Ready(s, tenant, n, ttl, limit) && Ample(s) && lease in Out(s, 0)
    ensures
      var e := Answer(lease, 4096);
      var s' := Step(s, tenant, e, ttl);
      && Allowed(s, tenant, e, limit) && Obliging(s, tenant, e, cap) && Ready(s', tenant, n, ttl, limit) && Ample(s')
      && Goal(s') == Goal(s) && |Out(s', 0)| == |Out(s, 0)| - 1 && s'.waiting == s.waiting
  {
    AnswerCounts(s, tenant, n, lease, 4096, ttl, cap, limit);
    assert |Out(s, 0) - {lease}| == |Out(s, 0)| - 1;
  }

  /** So does one that waited and comes. */
  lemma ComeKeepsGoal(s: State, tenant: string, n: nat, ttl: nat, cap: nat, limit: nat)
    requires ttl > 0 && limit > 0 && Ready(s, tenant, n, ttl, limit) && |s.waiting| > 0 && Out(s, 0) == {}
    ensures
      var e := Come(tenant, n, cap, limit);
      var s' := Step(s, tenant, e, ttl);
      && Allowed(s, tenant, e, limit) && Obliging(s, tenant, e, cap) && Ready(s', tenant, n + 1, ttl, limit)
        && Ample(s')
      && Goal(s') == Goal(s) && |s'.waiting| == |s.waiting| - 1
  {
    ComeGrants(s, tenant, n, ttl, cap, limit);
    assert {} + {Id(tenant, n)} == {Id(tenant, n)};
  }

  /** Every lease that is out reports, then those that waited come and report, one by one. */
  lemma {:induction false} Drain(s: State, tenant: string, n: nat, ttl: nat, cap: nat, limit: nat, k: nat)
    returns (run: seq<QuotaPlane.Timed>)
    requires ttl > 0 && limit > 0 && Ready(s, tenant, n, ttl, limit) && Ample(s) && |s.waiting| <= k
    ensures Reaches(s, tenant, run, ttl, cap, limit, k, Goal(s))
    decreases |s.waiting|, |Out(s, 0)|
  {
    if Out(s, 0) != {} {
      var lease :| lease in Out(s, 0);
      var e := Answer(lease, 4096);
      AnswerKeepsGoal(s, tenant, n, lease, ttl, cap, limit);
      var rest := Drain(Step(s, tenant, e, ttl), tenant, n, ttl, cap, limit, k);
      run := [e] + rest;
      Prepend(s, tenant, e, rest, ttl, cap, limit, k, Goal(s));
    } else if |s.waiting| > 0 {
      var e := Come(tenant, n, cap, limit);
      ComeKeepsGoal(s, tenant, n, ttl, cap, limit);
      var rest := Drain(Step(s, tenant, e, ttl), tenant, n + 1, ttl, cap, limit, k);
      run := [e] + rest;
      Prepend(s, tenant, e, rest, ttl, cap, limit, k, Goal(s));
    } else {
      run := [];
    }
  }

  /** At the cap exactly, requests still pass the daily gate to wait, and every lease is still granted. */
  lemma {:induction false} Fill(s: State, tenant: string, n: nat, ttl: nat, cap: nat, limit: nat, k: nat)
    returns (run: seq<QuotaPlane.Timed>)
    requires ttl > 0 && cap > 0 && limit > 0 && Ready(s, tenant, n, ttl, limit)
    requires Used(s.used, 0) == cap && |Out(s, 0)| <= limit && Ample(s) && |s.waiting| <= k
    ensures Reaches(s, tenant, run, ttl, cap, limit, k, Roof(cap, limit, k))
    decreases limit - |Out(s, 0)|, k - |s.waiting|
  {
    if |s.waiting| < k {
      var e := Queue(tenant, cap, limit);
      QueueWaits(s, tenant, n, ttl, cap, limit);
      var rest := Fill(Step(s, tenant, e, ttl), tenant, n, ttl, cap, limit, k);
      run := [e] + rest;
      Prepend(s, tenant, e, rest, ttl, cap, limit, k, Roof(cap, limit, k));
    } else if |Out(s, 0)| < limit {
      var e := Ask(tenant, n, cap, limit);
      AskGrants(s, tenant, n, ttl, cap, limit);
      var rest := Fill(Step(s, tenant, e, ttl), tenant, n + 1, ttl, cap, limit, k);
      run := [e] + rest;
      Prepend(s, tenant, e, rest, ttl, cap, limit, k, Roof(cap, limit, k));
    } else {
      run := Drain(s, tenant, n, ttl, cap, limit, k);
    }
  }

  /** One lease at a time brings the counter to its cap. */
  lemma {:induction false} Climb(s: State, tenant: string, n: nat, ttl: nat, cap: nat, limit: nat, k: nat)
    returns (run: seq<QuotaPlane.Timed>)
    requires ttl > 0 && cap > 0 && limit > 0 && Ready(s, tenant, n, ttl, limit)
    requires Out(s, 0) == {} && Used(s.used, 0) <= cap && s.waiting == []
    ensures Reaches(s, tenant, run, ttl, cap, limit, k, Roof(cap, limit, k))
    decreases cap - Used(s.used, 0)
  {
    if Used(s.used, 0) == cap {
      run := Fill(s, tenant, n, ttl, cap, limit, k);
    } else {
      var e := Ask(tenant, n, cap, limit);
      AskGrants(s, tenant, n, ttl, cap, limit);
      var s1 := Step(s, tenant, e, ttl);
      var f := Answer(Id(tenant, n), Min(4096, cap - Used(s.used, 0)));
      AnswerCounts(s1, tenant, n + 1, Id(tenant, n), f.call.tokens, ttl, cap, limit);
      var rest := Climb(Step(s1, tenant, f, ttl), tenant, n + 1, ttl, cap, limit, k);
      Prepend(s1, tenant, f, rest, ttl, cap, limit, k, Roof(cap, limit, k));
      Prepend(s, tenant, e, [f] + rest, ttl, cap, limit, k, Roof(cap, limit, k));
      run := [e] + ([f] + rest);
    }
  }

  /** The bound is tight: for every cap, limit and k some run, within the granted allowances, reaches it. */
  lemma OvershootIsTight(tenant: string, ttl: nat, cap: nat, limit: nat, k: nat)
    requires ttl > 0 && cap > 0 && limit > 0
    ensures exists run: seq<QuotaPlane.Timed> :: Reaches(Start, tenant, run, ttl, cap, limit, k, Roof(cap, limit, k))
  {
    var run := Climb(Start, tenant, 0, ttl, cap, limit, k);
  }
}
