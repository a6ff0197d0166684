/**
 The per-tenant request window of the quota plane (fusion_identity/cache.py, CHECK_RPM_LUA
 and check_rpm).

 A Redis sorted set holds one member per admitted request, scored with the second of the
 request. Each check drops the scores that left the 60 s window, counts what is left and, if
 there is room, adds a member. The key gets its 70 s time-to-live only when the set was empty,
 so a busy key can vanish while it still holds requests of the current window.

 The clock is in milliseconds, which is Redis' own expiry precision; the script sees whole
 seconds.
 */
module RpmWindow {
  import opened Util

  const WINDOW := 60
  const KEY_TTL_MS := 70000

  /** The sorted set of one tenant: scores in insertion order, and when Redis drops the key. */
  datatype RpmKey = Missing | Present(scores: seq<int>, expireAt: int)

  /** What Redis still holds of the key at this instant. */
  function AtTime(k: RpmKey, ms: nat): RpmKey {
    if k.Present? && k.expireAt <= ms then Missing else k
  }

  /** The scores above `lo`: what `zremrangebyscore key 0 lo` leaves. */
  function Above(scores: seq<int>, lo: int): seq<int> {
    if scores == [] then [] else
      var rest := Above(Init(scores), lo);
      if Last(scores) > lo then rest + [Last(scores)] else rest
  }

  function Kept(k: RpmKey, ms: nat): seq<int> {
    match AtTime(k, ms)
    case Missing => []
    case Present(scores, _) => Above(scores, Sec(ms) - WINDOW)
  }

  datatype Verdict = Verdict(key: RpmKey, ok: bool, remaining: int)

  /** One atomic run of the script. */
  function Script(k: RpmKey, ms: nat, limit: int): Verdict {
    var kept := Kept(k, ms);
    var left := if kept == [] then Missing else Present(kept, k.expireAt);
    if |kept| >= limit then
      Verdict(left, false, Max(0, limit - |kept|))
    else
      var expireAt := if |kept| == 0 then ms + KEY_TTL_MS else k.expireAt;
      Verdict(Present(kept + [Sec(ms)], expireAt), true, Max(0, limit - |kept| - 1))
  }

  /** The cache object that runs the script against the keys of all tenants. */
  class RpmCache {
    var keys: map<string, RpmKey>

    function KeyOf(tenant: string): RpmKey
      reads this
    {
      if tenant in keys then keys[tenant] else Missing
    }

    constructor ()
      ensures keys == map[]
    {
      keys := map[];
    }

    /** check_rpm: a limit of 0 or less never touches the window. */
    method CheckRpm(tenant: string, rpmLimit: int, ms: nat) returns (ok: bool, remaining: int)
      modifies this
      ensures rpmLimit <= 0 ==> ok && remaining == rpmLimit && keys == old(keys)
      ensures rpmLimit > 0 ==> Verdict(KeyOf(tenant), ok, remaining) == Script(old(KeyOf(tenant)), ms, rpmLimit)
      ensures forall t :: t in old(keys) && t != tenant ==> t in keys && keys[t] == old(keys[t])
      ensures forall t :: t in keys && t != tenant ==> t in old(keys)
    {
      if rpmLimit <= 0 {
        return true, rpmLimit;
      }
      var now := Sec(ms);
      var key := AtTime(KeyOf(tenant), ms);
      // zremrangebyscore, then zcard; an emptied sorted set is no key at all
      if key.Present? {
        var kept := Above(key.scores, now - WINDOW);
        key := if kept == [] then Missing else key.(scores := kept);
      }
      var count := if key.Present? then |key.scores| else 0;
      if count >= rpmLimit {
        keys := keys[tenant := key];
        return false, Max(0, rpmLimit - count);
      }
      // zadd, and expire only for the first member
      assert [] + [now] == [now];
      key := if key.Present? then key.(scores := key.scores + [now]) else Present([now], 0);
      if count == 0 {
        key := key.(expireAt := ms + KEY_TTL_MS);
      }
      keys := keys[tenant := key];
      return true, Max(0, rpmLimit - count - 1);
    }
  }

  // ----- Traces -----

  datatype Call = Call(ms: nat, limit: int)

  /** One lifetime of the key: when it started, the seconds of the requests admitted in it, and
      whether the time-to-live of the key before it ran out while that key still held requests
      of the window. */
  datatype Life = Life(start: int, cutShort: bool, ats: seq<int>)

  /** The key, everything ever admitted by lifetime, and the score the last trim went up to. */
  datatype World = World(key: RpmKey, lives: seq<Life>, cut: int)

  const Start := World(Missing, [], -WINDOW)

  function CutShort(k: RpmKey, ms: nat): bool {
    k.Present? && AtTime(k, ms).Missing? && Above(k.scores, Sec(ms) - WINDOW) != []
  }

  function Admit(lives: seq<Life>, newLife: bool, cutShort: bool, now: int): seq<Life> {
    if newLife || lives == [] then lives + [Life(now, cutShort, [now])]
    else Init(lives) + [Last(lives).(ats := Last(lives).ats + [now])]
  }

  function Step(w: World, c: Call): World {
    var v := Script(w.key, c.ms, c.limit);
    var lives := if v.ok then Admit(w.lives, Kept(w.key, c.ms) == [], CutShort(w.key, c.ms), Sec(c.ms)) else w.lives;
    World(v.key, lives, Sec(c.ms) - WINDOW)
  }

  function Run(calls: seq<Call>): World {
    if calls == [] then Start else Step(Run(Init(calls)), Last(calls))
  }

  /** Calls of one tenant: the clock never runs back and every limit is in 1..limit. */
  predicate Trace(calls: seq<Call>, limit: int) {
    && (forall i, j :: 0 <= i < j < |calls| ==> calls[i].ms <= calls[j].ms)
    && (forall i :: 0 <= i < |calls| ==> 0 < calls[i].limit <= limit)
  }

  /** How many of these seconds lie in the window (t - 60, t]. */
  function Count(ats: seq<int>, t: int): nat {
    if ats == [] then 0 else
      Count(Init(ats), t) + if t - 60 < Last(ats) <= t then 1 else 0
  }

  /** All admissions in the window (t - 60, t]. */
  function InWindow(lives: seq<Life>, t: int): nat {
    if lives == [] then 0 else InWindow(Init(lives), t) + Count(Last(lives).ats, t)
  }

  // ----- Invariant of every trace -----

  predicate Within(ats: seq<int>, lo: int, hi: int) {
    forall i :: 0 <= i < |ats| ==> lo <= ats[i] <= hi
  }

  ghost predicate Limited(ats: seq<int>, limit: int) {
    forall t :: Count(ats, t) <= limit
  }

  /** Lifetimes in order: each one admitted at most `limit` per window, ended before the next
      one started, started a window before it, and had left the window by then unless it was
      cut short. */
  ghost predicate Chain(lives: seq<Life>, limit: int, now: int) {
    lives != [] ==>
      var last := Last(lives);
      && Chain(Init(lives), limit, last.start)
      && last.ats != [] && Within(last.ats, last.start, now)
      && Limited(last.ats, limit)
      && (|lives| > 1 ==>
            && Last(Init(lives)).start + 60 <= last.start
            && (!last.cutShort ==> Within(Last(Init(lives)).ats, Last(Init(lives)).start, last.start - 60)))
  }

  /** The key holds exactly what the current lifetime admitted since the last trim. */
  predicate KeyInv(w: World, limit: int, now: int) {
    && w.cut <= now - 60
    && (w.key.Missing? ==> w.lives == [])
    && (w.key.Present? ==>
          && w.lives != []
          && 0 < |w.key.scores| <= limit
          && w.key.scores == Above(Last(w.lives).ats, w.cut)
          && Last(w.lives).start + 70 == w.key.expireAt / 1000)
  }

  lemma AboveSnoc(s: seq<int>, x: int, lo: int)
    ensures Above(s + [x], lo) == if x > lo then Above(s, lo) + [x] else Above(s, lo)
  {
    assert Init(s + [x]) == s;
  }

  lemma {:induction false} AboveAbove(s: seq<int>, lo: int, hi: int)
    requires lo <= hi
    ensures Above(Above(s, lo), hi) == Above(s, hi)
  {
    if s != [] {
      AboveAbove(Init(s), lo, hi);
      if Last(s) > lo {
        AboveSnoc(Above(Init(s), lo), Last(s), hi);
      }
    }
  }

  lemma {:induction false} AboveCounts(ats: seq<int>, now: int, t: int)
    requires forall i :: 0 <= i < |ats| ==> ats[i] <= now
    requires now <= t
    ensures Count(ats, t) <= |Above(ats, now - 60)| <= |ats|
  {
    if ats != [] {
      AboveCounts(Init(ats), now, t);
    }
  }

  lemma {:induction false} AboveIsShorter(s: seq<int>, lo: int)
    ensures |Above(s, lo)| <= |s|
    ensures Above(s, lo) == [] ==> forall i :: 0 <= i < |s| ==> s[i] <= lo
  {
    if s != [] {
      AboveIsShorter(Init(s), lo);
    }
  }

  /** A window that closes before the newest admission does not see it. */
  lemma LimitedStep(ats: seq<int>, now: int, limit: int)
    requires Limited(ats, limit)
    requires forall i :: 0 <= i < |ats| ==> ats[i] <= now
    requires |Above(ats, now - 60)| < limit
    ensures Limited(ats + [now], limit)
  {
    assert Init(ats + [now]) == ats;
    forall t ensures Count(ats + [now], t) <= limit {
      if now <= t {
        AboveCounts(ats, now, t);
      } else {
        assert Count(ats, t) <= limit;
      }
    }
  }

  lemma ChainLater(lives: seq<Life>, limit: int, before: int, now: int)
    requires Chain(lives, limit, before) && before <= now
    ensures Chain(lives, limit, now)
  {
  }

  /** A new lifetime starts at least a window after the one before it, and after everything in
      it unless the time-to-live cut it short. */
  lemma NewLifeIsLate(w: World, limit: int, before: int, ms: nat)
    requires Chain(w.lives, limit, before) && KeyInv(w, limit, before) && before <= Sec(ms)
    requires w.key.Present? && Kept(w.key, ms) == []
    ensures Last(w.lives).start + 60 <= Sec(ms)
    ensures !CutShort(w.key, ms) ==> Within(Last(w.lives).ats, Last(w.lives).start, Sec(ms) - 60)
  {
    var last := Last(w.lives);
    AboveAbove(last.ats, w.cut, Sec(ms) - 60);
    AboveIsShorter(last.ats, Sec(ms) - 60);
    if w.key.expireAt <= ms {
      assert w.key.expireAt / 1000 <= Sec(ms);
    } else {
      assert last.start <= last.ats[0] <= Sec(ms) - 60;
    }
  }

  lemma NewLifeChain(lives: seq<Life>, limit: int, before: int, now: int, cutShort: bool)
    requires Chain(lives, limit, before) && before <= now && limit > 0
    requires lives != [] ==>
               && Last(lives).start + 60 <= now
               && (!cutShort ==> Within(Last(lives).ats, Last(lives).start, now - 60))
    ensures Chain(lives + [Life(now, cutShort, [now])], limit, now)
  {
    ChainLater(lives, limit, before, now);
    LimitedStep([], now, limit);
    assert [] + [now] == [now];
    assert Init(lives + [Life(now, cutShort, [now])]) == lives;
  }

  lemma StepInNewLife(w: World, limit: int, before: int, c: Call)
    requires Chain(w.lives, limit, before) && KeyInv(w, limit, before) && before <= Sec(c.ms)
    requires 0 < c.limit <= limit && Kept(w.key, c.ms) == []
    ensures Chain(Step(w, c).lives, limit, Sec(c.ms)) && KeyInv(Step(w, c), limit, Sec(c.ms))
  {
    var now := Sec(c.ms);
    if w.key.Present? { NewLifeIsLate(w, limit, before, c.ms); }
    NewLifeChain(w.lives, limit, before, now, CutShort(w.key, c.ms));
    AboveSnoc([], now, now - 60);
    assert [] + [now] == [now];
    assert (c.ms + KEY_TTL_MS) / 1000 == now + 70;
  }

  lemma SameLifeChain(lives: seq<Life>, limit: int, before: int, now: int)
    requires lives != [] && Chain(lives, limit, before) && before <= now
    requires |Above(Last(lives).ats, now - 60)| < limit
    ensures Chain(Admit(lives, false, false, now), limit, now)
  {
    var last := Last(lives);
    LimitedStep(last.ats, now, limit);
    assert Init(Admit(lives, false, false, now)) == Init(lives);
  }

  lemma SameLifeKey(w: World, before: int, c: Call, limit: int)
    requires KeyInv(w, limit, before) && before <= Sec(c.ms) && Kept(w.key, c.ms) != []
    ensures Kept(w.key, c.ms) == Above(Last(w.lives).ats, Sec(c.ms) - 60)
    ensures |Kept(w.key, c.ms)| <= limit
  {
    AboveAbove(Last(w.lives).ats, w.cut, Sec(c.ms) - 60);
    AboveIsShorter(w.key.scores, Sec(c.ms) - 60);
  }

  lemma StepInSameLife(w: World, limit: int, before: int, c: Call)
    requires Chain(w.lives, limit, before) && KeyInv(w, limit, before) && before <= Sec(c.ms)
    requires 0 < c.limit <= limit && Kept(w.key, c.ms) != []
    ensures Chain(Step(w, c).lives, limit, Sec(c.ms)) && KeyInv(Step(w, c), limit, Sec(c.ms))
  {
    var now := Sec(c.ms);
    var ats := Last(w.lives).ats;
    SameLifeKey(w, before, c, limit);
    if |Kept(w.key, c.ms)| < c.limit {
      SameLifeChain(w.lives, limit, before, now);
      AboveSnoc(ats, now, now - 60);
    } else {
      ChainLater(w.lives, limit, before, now);
    }
  }

  function EndOf(calls: seq<Call>): int {
    if calls == [] then 0 else Sec(Last(calls).ms)
  }

  lemma {:induction false} RunKeepsInv(calls: seq<Call>, limit: int)
    requires Trace(calls, limit) && limit > 0
    ensures Chain(Run(calls).lives, limit, EndOf(calls)) && KeyInv(Run(calls), limit, EndOf(calls))
  {
    if calls != [] {
      RunKeepsInv(Init(calls), limit);
      ClockRuns(calls, limit);
      if Kept(Run(Init(calls)).key, Last(calls).ms) == [] {
        StepInNewLife(Run(Init(calls)), limit, EndOf(Init(calls)), Last(calls));
      } else {
        StepInSameLife(Run(Init(calls)), limit, EndOf(Init(calls)), Last(calls));
      }
    }
  }

  lemma ClockRuns(calls: seq<Call>, limit: int)
    requires Trace(calls, limit) && calls != []
    ensures EndOf(Init(calls)) <= Sec(Last(calls).ms)
  {
    if |calls| > 1 {
      assert calls[|calls| - 2].ms <= calls[|calls| - 1].ms;
    }
  }

  // ----- The rate bound -----

  lemma {:induction false} CountPositive(ats: seq<int>, t: int) returns (i: int)
    requires Count(ats, t) > 0
    ensures 0 <= i < |ats| && t - 60 < ats[i] <= t
  {
    if t - 60 < Last(ats) <= t {
      i := |ats| - 1;
    } else {
      i := CountPositive(Init(ats), t);
    }
  }

  /** Nothing is left in a window that opened after the last lifetime ended. */
  lemma {:induction false} WindowPassed(lives: seq<Life>, limit: int, now: int, t: int)
    requires Chain(lives, limit, now) && now <= t - 60
    ensures InWindow(lives, t) == 0
  {
    if lives != [] {
      var last := Last(lives);
      if Count(last.ats, t) > 0 {
        var i := CountPositive(last.ats, t);
      }
      WindowPassed(Init(lives), limit, last.start, t);
    }
  }

  /** The two lifetimes m - 1 and m of one window, the later one not empty. */
  ghost predicate Straddles(lives: seq<Life>, m: int, t: int) {
    0 < m < |lives| && lives[m].cutShort && Count(lives[m - 1].ats, t) > 0 && Count(lives[m].ats, t) > 0
  }

  lemma {:induction false} ChainBound(lives: seq<Life>, limit: int, now: int, t: int)
    requires Chain(lives, limit, now) && limit > 0
    ensures InWindow(lives, t) <= 2 * limit
    ensures InWindow(lives, t) > limit ==> exists m :: Straddles(lives, m, t)
  {
    if lives != [] {
      var last := Last(lives);
      var init := Init(lives);
      if Count(last.ats, t) == 0 {
        ChainBound(init, limit, last.start, t);
        if InWindow(lives, t) > limit {
          var m :| Straddles(init, m, t);
          assert Straddles(lives, m, t);
        }
      } else if init != [] {
        var prev := Last(init);
        var i := CountPositive(last.ats, t);
        WindowPassed(Init(init), limit, prev.start, t);
        assert InWindow(lives, t) == Count(prev.ats, t) + Count(last.ats, t);
        if Count(prev.ats, t) > 0 {
          var j := CountPositive(prev.ats, t);
          assert Straddles(lives, |lives| - 1, t);
        }
      }
    }
  }

  lemma {:induction false} LifeFacts(lives: seq<Life>, limit: int, now: int, m: int)
    requires Chain(lives, limit, now) && 0 <= m < |lives|
    ensures Limited(lives[m].ats, limit)
    ensures m > 0 ==> lives[m - 1].start + 60 <= lives[m].start
  {
    if m < |lives| - 1 {
      LifeFacts(Init(lives), limit, Last(lives).start, m);
    }
  }

  /** Every window holds at most `limit` admissions of one key lifetime, lifetimes start at
      least 60 s apart, so every window holds at most 2 * limit admissions in all; it exceeds
      `limit` only when it sees both sides of a time-to-live expiry that cut a lifetime short. */
  lemma RateBound(calls: seq<Call>, limit: int, t: int)
    requires Trace(calls, limit) && limit > 0
    ensures var lives := Run(calls).lives;
            && (forall m :: 0 <= m < |lives| ==> Count(lives[m].ats, t) <= limit)
            && (forall m :: 0 < m < |lives| ==> lives[m - 1].start + 60 <= lives[m].start)
            && InWindow(lives, t) <= 2 * limit
            && (InWindow(lives, t) > limit ==> exists m :: Straddles(lives, m, t))
  {
    var lives := Run(calls).lives;
    RunKeepsInv(calls, limit);
    ChainBound(lives, limit, EndOf(calls), t);
    forall m | 0 <= m < |lives|
      ensures Count(lives[m].ats, t) <= limit && (m > 0 ==> lives[m - 1].start + 60 <= lives[m].start)
    {
      LifeFacts(lives, limit, EndOf(calls), m);
    }
  }

  // ----- What a call answers -----

  lemma {:induction false} AboveIsCount(ats: seq<int>, now: int)
    requires forall i :: 0 <= i < |ats| ==> ats[i] <= now
    ensures |Above(ats, now - 60)| == Count(ats, now)
  {
    if ats != [] {
      AboveIsCount(Init(ats), now);
    }
  }

  lemma KeptIsCount(w: World, limit: int, before: int, c: Call)
    requires Chain(w.lives, limit, before) && KeyInv(w, limit, before) && before <= Sec(c.ms)
    requires Kept(w.key, c.ms) != []
    ensures |Kept(w.key, c.ms)| == Count(Last(w.lives).ats, Sec(c.ms))
  {
    SameLifeKey(w, before, c, limit);
    AboveIsCount(Last(w.lives).ats, Sec(c.ms));
  }

  /** On every trace: a request that is admitted is told how many more its limit leaves after what the
      key's lifetime has admitted in the last 60 s, itself included; one that is refused is told none, and
      its lifetime has admitted as many as its limit. */
  lemma CallAnswers(calls: seq<Call>, limit: int, c: Call)
    requires Trace(calls + [c], limit) && Trace(calls, limit) && limit > 0
    ensures
      var now := Sec(c.ms);
      var v := Script(Run(calls).key, c.ms, c.limit);
      var lives := Run(calls + [c]).lives;
      && lives != []
      && (v.ok ==> v.remaining == c.limit - Count(Last(lives).ats, now) >= 0)
      && (!v.ok ==> v.remaining == 0 && Count(Last(lives).ats, now) >= c.limit && lives == Run(calls).lives)
  {
    var w := Run(calls);
    var now := Sec(c.ms);
    assert Init(calls + [c]) == calls && Last(calls + [c]) == c;
    RunKeepsInv(calls, limit);
    ClockRuns(calls + [c], limit);
    assert (calls + [c])[|calls|] == c;
    var ats := if Kept(w.key, c.ms) == [] then [] else Last(w.lives).ats;
    if Kept(w.key, c.ms) != [] { KeptIsCount(w, limit, EndOf(calls), c); }
    assert Init(ats + [now]) == ats && Count(ats + [now], now) == Count(ats, now) + 1;
    assert [] + [now] == [now];
  }

  // ----- When the window is exact -----

  predicate SingleInv(w: World) {
    && (w.key.Present? ==> w.lives != [] && w.key.scores == [Last(w.lives).start])
    && (forall m :: 0 <= m < |w.lives| ==> !w.lives[m].cutShort)
  }

  lemma StepKeepsSingle(w: World, before: int, c: Call)
    requires SingleInv(w) && KeyInv(w, 1, before) && before <= Sec(c.ms) && c.limit == 1
    ensures SingleInv(Step(w, c))
  {
    if w.key.Present? {
      var s := w.key.scores[0];
      assert Init([s]) == [];
      assert Above([s], Sec(c.ms) - 60) == if s > Sec(c.ms) - 60 then [s] else [];
      if w.key.expireAt <= c.ms {
        assert w.key.expireAt / 1000 <= Sec(c.ms);
      }
    }
  }

  lemma {:induction false} RunKeepsSingle(calls: seq<Call>)
    requires Trace(calls, 1)
    ensures SingleInv(Run(calls))
  {
    if calls != [] {
      RunKeepsSingle(Init(calls));
      RunKeepsInv(Init(calls), 1);
      ClockRuns(calls, 1);
      StepKeepsSingle(Run(Init(calls)), EndOf(Init(calls)), Last(calls));
    }
  }

  function Copies<T>(n: nat, x: T): (s: seq<T>)
    ensures |s| == n && forall i :: 0 <= i < n ==> s[i] == x
  {
    if n == 0 then [] else Copies(n - 1, x) + [x]
  }

  lemma {:induction false} AboveAll(s: seq<int>, lo: int)
    requires forall i :: 0 <= i < |s| ==> s[i] > lo
    ensures Above(s, lo) == s
  {
    if s != [] {
      AboveAll(Init(s), lo);
    }
  }

  lemma {:induction false} AboveOfPrefix(s: int, rest: seq<int>, lo: int)
    requires s <= lo
    requires forall i :: 0 <= i < |rest| ==> rest[i] > lo
    ensures Above([s] + rest, lo) == rest
  {
    if rest != [] {
      AboveOfPrefix(s, Init(rest), lo);
      assert Init([s] + rest) == [s] + Init(rest);
    } else {
      assert Init([s] + rest) == [];
    }
  }

  lemma {:induction false} CountOfCopies(ats: seq<int>, n: nat, at: int, t: int)
    requires t - 60 < at <= t
    ensures Count(ats + Copies(n, at), t) == Count(ats, t) + n
  {
    if n == 0 {
      assert ats + Copies(n, at) == ats;
    } else {
      CountOfCopies(ats, n - 1, at, t);
      assert Init(ats + Copies(n, at)) == ats + Copies(n - 1, at);
    }
  }

  /** One more call that finds the key alive, nothing to trim and room for one. */
  lemma StepWithRoom(w: World, c: Call)
    requires AtTime(w.key, c.ms).Present? && w.key.scores != [] && w.lives != []
    requires forall i :: 0 <= i < |w.key.scores| ==> w.key.scores[i] > Sec(c.ms) - 60
    requires |w.key.scores| < c.limit
    ensures Step(w, c).key == Present(w.key.scores + [Sec(c.ms)], w.key.expireAt)
    ensures Step(w, c).lives == Init(w.lives) + [Last(w.lives).(ats := Last(w.lives).ats + [Sec(c.ms)])]
  {
    AboveAll(w.key.scores, Sec(c.ms) - 60);
  }

  /** n more calls in one second, all in the window of a living key with room for them. */
  lemma {:induction false} RunRepeat(calls: seq<Call>, n: nat, c: Call, w: World)
    requires w == Run(calls) && AtTime(w.key, c.ms).Present? && w.key.scores != [] && w.lives != []
    requires forall i :: 0 <= i < |w.key.scores| ==> w.key.scores[i] > Sec(c.ms) - 60
    requires |w.key.scores| + n <= c.limit
    ensures var w' := Run(calls + Copies(n, c));
            && w'.key == Present(w.key.scores + Copies(n, Sec(c.ms)), w.key.expireAt)
            && w'.lives == Init(w.lives) + [Last(w.lives).(ats := Last(w.lives).ats + Copies(n, Sec(c.ms)))]
  {
    if n == 0 {
      assert calls + Copies(n, c) == calls;
      assert w.lives == Init(w.lives) + [Last(w.lives)];
      assert Last(w.lives).ats + Copies(n, Sec(c.ms)) == Last(w.lives).ats;
    } else {
      RunRepeat(calls, n - 1, c, w);
      RepeatOnce(calls, n, c, w, Run(calls + Copies(n - 1, c)));
    }
  }

  lemma RepeatOnce(calls: seq<Call>, n: nat, c: Call, w: World, prev: World)
    requires n > 0 && w.key.Present? && c.ms < w.key.expireAt && w.key.scores != [] && w.lives != []
    requires forall i :: 0 <= i < |w.key.scores| ==> w.key.scores[i] > Sec(c.ms) - 60
    requires |w.key.scores| + n <= c.limit
    requires prev == Run(calls + Copies(n - 1, c))
    requires prev.key == Present(w.key.scores + Copies(n - 1, Sec(c.ms)), w.key.expireAt)
    requires prev.lives == Init(w.lives) + [Last(w.lives).(ats := Last(w.lives).ats + Copies(n - 1, Sec(c.ms)))]
    ensures var w' := Run(calls + Copies(n, c));
            && w'.key == Present(w.key.scores + Copies(n, Sec(c.ms)), w.key.expireAt)
            && w'.lives == Init(w.lives) + [Last(w.lives).(ats := Last(w.lives).ats + Copies(n, Sec(c.ms)))]
  {
    var now := Sec(c.ms);
    StepWithRoom(prev, c);
    OneCopyMore(calls, n, c);
    OneCopyMore(Last(w.lives).ats, n, now);
    OneCopyMore(w.key.scores, n, now);
    assert Run(calls + Copies(n, c)) == Step(prev, c);
    assert Init(prev.lives) == Init(w.lives);
  }

  lemma OneCopyMore<T>(s: seq<T>, n: nat, x: T)
    requires n > 0
    ensures s + Copies(n - 1, x) + [x] == s + Copies(n, x)
    ensures Init(s + Copies(n, x)) == s + Copies(n - 1, x) && Last(s + Copies(n, x)) == x
  {
  }

  /** One request at 0 s, limit - 1 at 59 s, one at 60 s; the key dies at 70 s. */
  function Opening(limit: nat): seq<Call>
    requires limit >= 2
  {
    [Call(0, limit)] + Copies(limit - 1, Call(59000, limit)) + [Call(60000, limit)]
  }

  /** ... and `limit` more at 70 s. */
  function Burst(limit: nat): seq<Call>
    requires limit >= 2
  {
    Opening(limit) + [Call(70000, limit)] + Copies(limit - 1, Call(70000, limit))
  }

  lemma FirstCall(limit: nat)
    requires limit >= 2
    ensures Run([Call(0, limit)]) == World(Present([0], 70000), [Life(0, false, [0])], -60)
  {
    assert Init([Call(0, limit)]) == [];
    assert [] + [0] == [0];
  }

  lemma SecondCalls(limit: nat)
    requires limit >= 2
    ensures Run([Call(0, limit)] + Copies(limit - 1, Call(59000, limit))) ==
              World(Present([0] + Copies(limit - 1, 59), 70000), [Life(0, false, [0] + Copies(limit - 1, 59))], -1)
  {
    var first := [Call(0, limit)];
    var c := Call(59000, limit);
    FirstCall(limit);
    RunRepeat(first, limit - 1, c, Run(first));
    assert Init([Life(0, false, [0])]) == [];
    assert Last(first + Copies(limit - 1, c)) == c;
  }

  lemma OpeningState(limit: nat)
    requires limit >= 2
    ensures Run(Opening(limit)) ==
              World(Present(Copies(limit - 1, 59) + [60], 70000),
                [Life(0, false, [0] + Copies(limit - 1, 59) + [60])], 0)
  {
    var mid := [Call(0, limit)] + Copies(limit - 1, Call(59000, limit));
    SecondCalls(limit);
    AboveOfPrefix(0, Copies(limit - 1, 59), 0);
    assert Init(Opening(limit)) == mid && Last(Opening(limit)) == Call(60000, limit);
    var w := Run(mid);
    assert Kept(w.key, 60000) == Copies(limit - 1, 59);
    assert Init(w.lives) == [];
    assert Run(Opening(limit)) == Step(w, Call(60000, limit));
  }

  lemma SeventiethSecond(limit: nat)
    requires limit >= 2
    ensures Run(Opening(limit) + [Call(70000, limit)]) ==
              World(Present([70], 140000), Run(Opening(limit)).lives + [Life(70, true, [70])], 10)
  {
    var next := Opening(limit) + [Call(70000, limit)];
    OpeningState(limit);
    AboveSnoc(Copies(limit - 1, 59), 60, 10);
    assert Init(next) == Opening(limit) && Last(next) == Call(70000, limit);
    assert [] + [70] == [70];
  }

  /** The bound 2 * limit of RateBound is met, for every limit of at least two. */
  lemma BurstDoubles(limit: nat)
    requires limit >= 2
    ensures Trace(Burst(limit), limit)
    ensures InWindow(Run(Burst(limit)).lives, 70) == 2 * limit
  {
    var a := Life(0, false, [0] + Copies(limit - 1, 59) + [60]);
    var b := Life(70, true, [70] + Copies(limit - 1, 70));
    BurstIsTrace(limit);
    BurstLives(limit, a, b);
    BurstCount(limit, a, b);
  }

  lemma BurstIsTrace(limit: nat)
    requires limit >= 2
    ensures Trace(Burst(limit), limit)
  {
    var calls := Burst(limit);
    assert |calls| == 2 * limit + 1;
    assert forall i :: 0 <= i < |calls| ==>
             calls[i]
             == Call(if i == 0 then 0 else if i < limit then 59000 else if i == limit then 60000 else 70000, limit);
  }

  lemma BurstLives(limit: nat, a: Life, b: Life)
    requires limit >= 2
    requires a == Life(0, false, [0] + Copies(limit - 1, 59) + [60])
             && b == Life(70, true, [70] + Copies(limit - 1, 70))
    ensures Run(Burst(limit)).lives == [a, b]
  {
    var next := Opening(limit) + [Call(70000, limit)];
    OpeningState(limit);
    SeventiethSecond(limit);
    RunRepeat(next, limit - 1, Call(70000, limit), Run(next));
    assert Init(Run(next).lives) == [a] && Last(Run(next).lives) == Life(70, true, [70]);
    assert [a] + [b] == [a, b];
  }

  lemma BurstCount(limit: nat, a: Life, b: Life)
    requires limit >= 2
    requires a.ats == [0] + Copies(limit - 1, 59) + [60] && b.ats == [70] + Copies(limit - 1, 70)
    ensures InWindow([a, b], 70) == 2 * limit
  {
    CountOfCopies([70], limit - 1, 70, 70);
    CountOfCopies([0], limit - 1, 59, 70);
    assert Init(a.ats) == [0] + Copies(limit - 1, 59);
    assert Init([0]) == [] && Init([70]) == [];
    assert Init([a, b]) == [a] && Init([a]) == [];
    assert InWindow([a], 70) == Count(a.ats, 70);
  }

  /** The window promised by the script holds on every trace exactly for a limit of one. */
  lemma WindowExactIff(limit: nat)
    requires limit > 0
    ensures (forall calls, t | Trace(calls, limit) :: InWindow(Run(calls).lives, t) <= limit) <==> limit == 1
  {
    if limit == 1 {
      forall calls, t | Trace(calls, limit) ensures InWindow(Run(calls).lives, t) <= limit {
        RateBound(calls, limit, t);
        RunKeepsSingle(calls);
      }
    } else {
      BurstDoubles(limit);
      assert InWindow(Run(Burst(limit)).lives, 70) > limit;
    }
  }
}
