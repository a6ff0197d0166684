/**
 Concurrency leases of one tenant (fusion_identity/concurrency.py, ACQUIRE_LUA, RELEASE_LUA and
 ConcurrencyManager).

 A Redis sorted set holds one member per lease, scored with the second at which the lease ends.
 The acquire script first drops the members whose second has come. The set key has a
 time-to-live of its own, pushed forward by every acquire, and each lease also has a marker key
 that lives for the lease time.

 Each script is one atomic step. The clock is in milliseconds; scripts see whole seconds. Lease
 ids are fresh. The sets of different tenants are different keys; runs are of one tenant.
 */
module LeaseSet {
  import opened Util

  const KEY_SLACK := 60

  /** The sorted set, when Redis drops its key (only meaningful while it has members), and the
      marker keys with the instants they end. */
  datatype Leases = Leases(scores: map<string, int>, expireAt: int, markers: map<string, int>)

  const NoLeases := Leases(map[], 0, map[])

  function AtTime(l: Leases, ms: nat): Leases {
    l.(scores := if l.expireAt <= ms then map[] else l.scores,
       markers := map k | k in l.markers && l.markers[k] > ms :: l.markers[k])
  }

  /** Redis still has a key a millisecond before its end, and no longer at it. */
  lemma KeysEnd(l: Leases, ms: nat, id: string)
    ensures id in AtTime(l, ms).scores <==> id in l.scores && ms + 1 <= l.expireAt
    ensures id in AtTime(l, ms).markers <==> id in l.markers && ms + 1 <= l.markers[id]
  {
  }

  /** What `zremrangebyscore lset 0 now` leaves, and what it takes. */
  function Running(scores: map<string, int>, now: int): map<string, int> {
    map id | id in scores && scores[id] > now :: scores[id]
  }

  function Ended(scores: map<string, int>, now: int): set<string> {
    set id | id in scores && scores[id] <= now
  }

  /** Drop the ended leases and their markers. */
  function Reap(l: Leases, now: int): Leases {
    Leases(Running(l.scores, now), l.expireAt, l.markers - Ended(l.scores, now))
  }

  /** Drop the ended leases; their markers end by themselves. */
  function Trim(l: Leases, now: int): Leases {
    l.(scores := Running(l.scores, now))
  }

  function Add(l: Leases, ms: nat, ttl: nat, id: string): Leases {
    Leases(l.scores[id := Sec(ms) + ttl], ms + (ttl + KEY_SLACK) * 1000, l.markers[id := ms + ttl * 1000])
  }

  function Remove(l: Leases, id: string): Leases {
    l.(scores := l.scores - {id}, markers := l.markers - {id})
  }

  /** The state after a script, and what the script returned. */
  datatype Reply = Reply(leases: Leases, count: int)

  function Acquire(l: Leases, ms: nat, ttl: nat, id: string, max: int): Reply {
    var left := Reap(AtTime(l, ms), Sec(ms));
    if |left.scores| >= max then Reply(left, 0)
    else Reply(Add(left, ms, ttl, id), |Add(left, ms, ttl, id).scores|)
  }

  function Release(l: Leases, ms: nat, id: string): Reply {
    var a := AtTime(l, ms);
    if id !in a.scores then Reply(a, -1) else Reply(Remove(a, id), |Remove(a, id).scores|)
  }

  /** The two calls of active_count: the range removal, and the count. */
  function Trimmed(l: Leases, ms: nat): Leases {
    Trim(AtTime(l, ms), Sec(ms))
  }

  function Card(l: Leases, ms: nat): Reply {
    Reply(AtTime(l, ms), |AtTime(l, ms).scores|)
  }

  /** The leases Redis holds at an instant that have not ended. */
  function Holding(l: Leases, ms: nat): map<string, int> {
    Running(AtTime(l, ms).scores, Sec(ms))
  }

  /** An acquire keeps what is running, and adds the new lease exactly if there is room for it. */
  lemma AcquireAdds(l: Leases, ms: nat, ttl: nat, id: string, max: int)
    requires ttl > 0
    ensures
      var r := Acquire(l, ms, ttl, id, max);
      && (r.count <= 0 <==> |Holding(l, ms)| >= max)
      && (r.count <= 0 ==> r.count == 0 && Holding(r.leases, ms) == r.leases.scores == Holding(l, ms))
      && (r.count > 0 ==>
        Holding(r.leases, ms) == r.leases.scores == Holding(l, ms)[id := Sec(ms) + ttl] && r.leases.expireAt > ms)
  {
    var left := Reap(AtTime(l, ms), Sec(ms));
    assert |Add(left, ms, ttl, id).scores.Keys| > 0;
  }

  /** Giving a lease back in the instant it was acquired restores what was running. */
  lemma ReleaseUndoes(before: map<string, int>, l: Leases, ms: nat, id: string, ends: int)
    requires id !in before && l.expireAt > ms && l.scores == Holding(l, ms) == before[id := ends]
    ensures Holding(Release(l, ms, id).leases, ms) == before && id !in Release(l, ms, id).leases.scores
  {
    assert before[id := ends] - {id} == before;
  }

  /** The manager of the lease sets of all tenants. */
  class ConcurrencyManager {
    const leaseTtl: nat
    var sets: map<string, Leases>

    function SetOf(tenant: string): Leases
      reads this
    {
      if tenant in sets then sets[tenant] else NoLeases
    }

    constructor (ttl: nat)
      ensures leaseTtl == ttl && sets == map[]
    {
      leaseTtl, sets := ttl, map[];
    }

    /** The first half of the acquire script: a loop over the markers, then the members. */
    method DropEnded(l: Leases, ms: nat) returns (left: Leases)
      ensures left == Reap(AtTime(l, ms), Sec(ms))
    {
      var now := Sec(ms);
      var a := AtTime(l, ms);
      left := a;
      var ended := Ended(a.scores, now);
      while ended != {}
        invariant ended <= Ended(a.scores, now)
        invariant left.scores == a.scores && left.expireAt == a.expireAt
        invariant forall id :: id in left.markers <==> id in a.markers && (id in Ended(a.scores, now) ==> id in ended)
        invariant forall id :: id in left.markers ==> left.markers[id] == a.markers[id]
        decreases ended
      {
        var id :| id in ended;
        left := left.(markers := left.markers - {id});
        ended := ended - {id};
      }
      assert left.markers == a.markers - Ended(a.scores, now);
      left := left.(scores := Running(left.scores, now));
    }

    /** try_acquire: a limit of 0 or less never runs the script. */
    method TryAcquire(tenant: string, id: string, max: int, ms: nat) returns (r: Option<(string, int)>)
      modifies this
      ensures max <= 0 ==> r == None && sets == old(sets)
      ensures max > 0 ==>
                var reply := Acquire(old(SetOf(tenant)), ms, leaseTtl, id, max);
                && sets == old(sets)[tenant := reply.leases]
                && r == if reply.count == 0 then None else Some((id, reply.count))
    {
      if max <= 0 {
        return None;
      }
      var left := DropEnded(SetOf(tenant), ms);
      sets := sets[tenant := left];
      if |left.scores| >= max {
        return None;
      }
      left := Add(left, ms, leaseTtl, id);
      sets := sets[tenant := left];
      return Some((id, |left.scores|));
    }

    method ReleaseLease(tenant: string, id: string, ms: nat) returns (count: int)
      modifies this
      ensures var reply := Release(old(SetOf(tenant)), ms, id);
              sets == old(sets)[tenant := reply.leases] && count == reply.count
    {
      var l := AtTime(SetOf(tenant), ms);
      if id !in l.scores {
        sets := sets[tenant := l];
        return -1;
      }
      l := l.(scores := l.scores - {id}, markers := l.markers - {id});
      sets := sets[tenant := l];
      return |l.scores|;
    }

    /** active_count: two calls, at two instants. */
    method CountActive(tenant: string, trimAt: nat, countAt: nat) returns (count: int)
      modifies this
      ensures var reply := Card(Trimmed(old(SetOf(tenant)), trimAt), countAt);
              sets == old(sets)[tenant := reply.leases] && count == reply.count
    {
      var l := AtTime(SetOf(tenant), trimAt);
      l := l.(scores := Running(l.scores, Sec(trimAt)));
      l := AtTime(l, countAt);
      sets := sets[tenant := l];
      return |l.scores|;
    }
  }

  // ----- Runs -----

  datatype Op = TryAcquire(id: string, max: int) | TryRelease(id: string) | TrimEnded | Count

  datatype Timed = Timed(op: Op, ms: nat)

  /** Where a lease ever acquired is now: in the set, released, dropped by a script, or gone with
      the set key. */
  datatype Fate = Held | Released | Reaped | Lost

  /** A lease and the second it ends. */
  datatype Lease = Lease(ends: int, fate: Fate)

  type Book = map<string, Lease>

  /** The sorted set, and every lease ever acquired. */
  datatype World = World(l: Leases, book: Book)

  const Start := World(NoLeases, map[])

  function Moved(book: Book, ids: set<string>, fate: Fate): Book {
    map id | id in book :: if id in ids then book[id].(fate := fate) else book[id]
  }

  /** Time passes: the set key may end. */
  function Passed(w: World, ms: nat): World {
    World(AtTime(w.l, ms), Moved(w.book, w.l.scores.Keys - AtTime(w.l, ms).scores.Keys, Lost))
  }

  function Result(w: World, e: Timed, ttl: nat): int {
    match e.op
    case TryAcquire(id, max) => if max <= 0 then 0 else Acquire(w.l, e.ms, ttl, id, max).count
    case TryRelease(id) => Release(w.l, e.ms, id).count
    case TrimEnded => |Ended(AtTime(w.l, e.ms).scores, Sec(e.ms))|
    case Count => Card(w.l, e.ms).count
  }

  function Step(w: World, e: Timed, ttl: nat): World {
    var p := Passed(w, e.ms);
    var now := Sec(e.ms);
    match e.op
    case TryAcquire(id, max) =>
      if max <= 0 then p
      else
        var left := World(Reap(p.l, now), Moved(p.book, Ended(p.l.scores, now), Reaped));
        if |left.l.scores| >= max then left
        else World(Add(left.l, e.ms, ttl, id), left.book[id := Lease(now + ttl, Held)])
    case TryRelease(id) =>
      if id !in p.l.scores then p else World(Remove(p.l, id), Moved(p.book, {id}, Released))
    case TrimEnded =>
      World(Trim(p.l, now), Moved(p.book, Ended(p.l.scores, now), Reaped))
    case Count => p
  }

  /** The books follow the scripts: a step leaves the set as its script does. */
  lemma StepRunsScript(w: World, e: Timed, ttl: nat)
    ensures
      Step(w, e, ttl).l ==
      match e.op
      case TryAcquire(id, max) => if max <= 0 then AtTime(w.l, e.ms) else Acquire(w.l, e.ms, ttl, id, max).leases
      case TryRelease(id) => Release(w.l, e.ms, id).leases
      case TrimEnded => Trimmed(w.l, e.ms)
      case Count => Card(w.l, e.ms).leases
  {
  }

  /** Ids are fresh, and no acquire asks for more than the limit. */
  predicate Allowed(w: World, e: Timed, limit: nat) {
    e.op.TryAcquire? ==> e.op.id !in w.book && e.op.max <= limit
  }

  predicate Legal(w: World, run: seq<Timed>, now: nat, ttl: nat, limit: nat)
    decreases |run|
  {
    if run == [] then true
    else now <= run[0].ms && Allowed(w, run[0], limit) && Legal(Step(w, run[0], ttl), run[1..], run[0].ms, ttl, limit)
  }

  function After(w: World, run: seq<Timed>, ttl: nat): World
    decreases |run|
  {
    if run == [] then w else After(Step(w, run[0], ttl), run[1..], ttl)
  }

  /** The last instant of a run. */
  function Clock(run: seq<Timed>, now: nat): nat {
    if run == [] then now else run[|run| - 1].ms
  }

  // ----- The invariant -----

  /**
   One id: it is in the set exactly while it is held, and the set key covers it; what scripts and
   the end of the key took had ended; a marker ends within a second after its lease, never belongs
   to a released one, and every running lease in the set has one.
   */
  predicate Fits(l: Leases, book: Book, id: string, now: nat) {
    && (id in l.scores <==> id in book && book[id].fate == Held)
    && (id in l.scores ==> l.scores[id] == book[id].ends && (book[id].ends + 60) * 1000 <= l.expireAt)
    && (id in book && (book[id].fate == Reaped || book[id].fate == Lost) ==> book[id].ends <= Sec(now))
    && (id in l.markers ==> id in book && book[id].fate != Released && 0 <= l.markers[id] - book[id].ends * 1000 < 1000)
    && (id in l.scores && l.scores[id] > Sec(now) ==> id in l.markers)
  }

  ghost predicate Booked(w: World, now: nat) {
    forall id :: Fits(w.l, w.book, id, now)
  }

  ghost predicate Inv(w: World, now: nat, ttl: nat, limit: nat) {
    Booked(w, now) && w.l.expireAt <= now + (ttl + 60) * 1000 && |w.l.scores| <= limit
  }

  lemma PassedFits(w: World, id: string, now: nat, ms: nat)
    requires Fits(w.l, w.book, id, now) && now <= ms
    ensures Fits(Passed(w, ms).l, Passed(w, ms).book, id, ms)
  {
  }

  lemma ReapFits(l: Leases, book: Book, id: string, ms: nat)
    requires Fits(l, book, id, ms)
    ensures Fits(Reap(l, Sec(ms)), Moved(book, Ended(l.scores, Sec(ms)), Reaped), id, ms)
    ensures Fits(Trim(l, Sec(ms)), Moved(book, Ended(l.scores, Sec(ms)), Reaped), id, ms)
  {
  }

  lemma AddFits(l: Leases, book: Book, id: string, ms: nat, ttl: nat, added: string)
    requires Fits(l, book, id, ms) && added !in book
    requires l.expireAt <= ms + (ttl + 60) * 1000
    ensures Fits(Add(l, ms, ttl, added), book[added := Lease(Sec(ms) + ttl, Held)], id, ms)
  {
  }

  lemma RemoveFits(l: Leases, book: Book, id: string, ms: nat, gone: string)
    requires Fits(l, book, id, ms) && gone in l.scores
    ensures Fits(Remove(l, gone), Moved(book, {gone}, Released), id, ms)
  {
  }

  lemma StepFits(w: World, e: Timed, id: string, now: nat, ttl: nat, limit: nat)
    requires Fits(w.l, w.book, id, now) && now <= e.ms && Allowed(w, e, limit)
    requires w.l.expireAt <= now + (ttl + 60) * 1000
    ensures Fits(Step(w, e, ttl).l, Step(w, e, ttl).book, id, e.ms)
  {
    var p := Passed(w, e.ms);
    PassedFits(w, id, now, e.ms);
    ReapFits(p.l, p.book, id, e.ms);
    match e.op
    case TryAcquire(added, _) =>
      AddFits(Reap(p.l, Sec(e.ms)), Moved(p.book, Ended(p.l.scores, Sec(e.ms)), Reaped), id, e.ms, ttl, added);
    case TryRelease(gone) =>
      if gone in p.l.scores { RemoveFits(p.l, p.book, id, e.ms, gone); }
    case TrimEnded =>
    case Count =>
  }

  lemma StepBounds(w: World, e: Timed, ttl: nat, limit: nat)
    requires Allowed(w, e, limit) && |w.l.scores| <= limit
    ensures |Step(w, e, ttl).l.scores| <= limit
  {
    var a := AtTime(w.l, e.ms).scores;
    SubsetCard(a.Keys, w.l.scores.Keys);
    SubsetCard(Running(a, Sec(e.ms)).Keys, a.Keys);
    if e.op.TryRelease? { SubsetCard((a - {e.op.id}).Keys, a.Keys); }
  }

  lemma StepKeeps(w: World, e: Timed, now: nat, ttl: nat, limit: nat)
    requires Inv(w, now, ttl, limit) && now <= e.ms && Allowed(w, e, limit)
    ensures Inv(Step(w, e, ttl), e.ms, ttl, limit)
  {
    forall id ensures Fits(Step(w, e, ttl).l, Step(w, e, ttl).book, id, e.ms) {
      StepFits(w, e, id, now, ttl, limit);
    }
    StepBounds(w, e, ttl, limit);
  }

  lemma {:induction false} RunKeeps(w: World, run: seq<Timed>, now: nat, ttl: nat, limit: nat)
    requires Inv(w, now, ttl, limit) && Legal(w, run, now, ttl, limit)
    ensures Inv(After(w, run, ttl), Clock(run, now), ttl, limit)
    decreases |run|
  {
    if run != [] {
      StepKeeps(w, run[0], now, ttl, limit);
      RunKeeps(Step(w, run[0], ttl), run[1..], run[0].ms, ttl, limit);
    }
  }

  lemma InvLater(w: World, now: nat, ms: nat, ttl: nat, limit: nat)
    requires Inv(w, now, ttl, limit) && now <= ms
    ensures Inv(w, ms, ttl, limit)
  {
    forall id ensures Fits(w.l, w.book, id, ms) {
      assert Fits(w.l, w.book, id, now);
    }
  }

  // ----- What it means -----

  /** Acquired, not released, and not yet ended. */
  function Live(book: Book, now: int): set<string> {
    set id | id in book && book[id].fate != Released && book[id].ends > now
  }

  /** At any later instant, until the next step, Redis holds exactly the live leases among what has not ended. */
  lemma LiveIsHeld(w: World, now: nat, ms: nat)
    requires Booked(w, now) && now <= ms
    ensures Live(w.book, Sec(ms)) == Holding(w.l, ms).Keys
    ensures Live(w.book, Sec(ms)) <= AtTime(w.l, ms).markers.Keys
  {
    forall id ensures id in Live(w.book, Sec(ms)) <==> id in Holding(w.l, ms).Keys {
      assert Fits(w.l, w.book, id, now);
    }
    forall id | id in Live(w.book, Sec(ms)) ensures id in AtTime(w.l, ms).markers {
      assert Fits(w.l, w.book, id, now);
    }
  }

  /**
   In every run with limits up to `limit`: never more live leases than that, at any instant until
   the next step; the end of the set key loses no live lease; each has its marker.
   */
  lemma LeaseSafety(run: seq<Timed>, ttl: nat, limit: nat, ms: nat)
    requires Legal(Start, run, 0, ttl, limit) && Clock(run, 0) <= ms
    ensures
      var w := After(Start, run, ttl);
      && |Live(w.book, Sec(ms))| <= limit
      && Live(w.book, Sec(ms)) == Holding(w.l, ms).Keys
      && Live(w.book, Sec(ms)) <= AtTime(w.l, ms).markers.Keys
  {
    RunKeeps(Start, run, 0, ttl, limit);
    var w := After(Start, run, ttl);
    LiveIsHeld(w, Clock(run, 0), ms);
    SubsetCard(Live(w.book, Sec(ms)), w.l.scores.Keys);
  }

  function Having(book: Book, fate: Fate): set<string> {
    set id | id in book && book[id].fate == fate
  }

  lemma UnionCard<T>(a: set<T>, b: set<T>)
    requires a !! b
    ensures |a + b| == |a| + |b|
  {
  }

  lemma FatesAddUp(book: Book)
    ensures |book| == |Having(book, Held)| + |Having(book, Released)| + |Having(book, Reaped)| + |Having(book, Lost)|
  {
    var h, r, x, l := Having(book, Held), Having(book, Released), Having(book, Reaped), Having(book, Lost);
    UnionCard(h, r);
    UnionCard(h + r, x);
    UnionCard(h + r + x, l);
    assert book.Keys == h + r + x + l;
  }

  lemma HeldIsSet(w: World, now: nat)
    requires Booked(w, now)
    ensures Having(w.book, Held) == w.l.scores.Keys
    ensures forall id :: id in Having(w.book, Reaped) + Having(w.book, Lost) ==> w.book[id].ends <= Sec(now)
  {
    forall id ensures id in Having(w.book, Held) <==> id in w.l.scores.Keys {
      assert Fits(w.l, w.book, id, now);
    }
    forall id | id in Having(w.book, Reaped) + Having(w.book, Lost) ensures w.book[id].ends <= Sec(now) {
      assert Fits(w.l, w.book, id, now);
    }
  }

  /** acquired = still in the set + released + reaped + lost with the key; only ended leases are reaped or lost. */
  lemma Conservation(run: seq<Timed>, ttl: nat, limit: nat)
    requires Legal(Start, run, 0, ttl, limit)
    ensures
      var w := After(Start, run, ttl);
      && |w.book| == |w.l.scores| + |Having(w.book, Released)| + |Having(w.book, Reaped)| + |Having(w.book, Lost)|
      && Having(w.book, Held) == w.l.scores.Keys
      && (forall id :: id in Having(w.book, Reaped) + Having(w.book, Lost) ==> w.book[id].ends <= Sec(Clock(run, 0)))
  {
    RunKeeps(Start, run, 0, ttl, limit);
    var w := After(Start, run, ttl);
    FatesAddUp(w.book);
    HeldIsSet(w, Clock(run, 0));
  }

  /** How many releases of a lease succeed in a run. */
  function Releases(w: World, run: seq<Timed>, id: string, ttl: nat): nat
    decreases |run|
  {
    if run == [] then 0
    else
      (if run[0].op == TryRelease(id) && Result(w, run[0], ttl) >= 0 then 1 else 0)
      + Releases(Step(w, run[0], ttl), run[1..], id, ttl)
  }

  predicate WasReleased(book: Book, id: string) {
    id in book && book[id].fate == Released
  }

  lemma ReleaseStep(w: World, e: Timed, id: string, now: nat, ttl: nat, limit: nat)
    requires Fits(w.l, w.book, id, now) && Allowed(w, e, limit) && now <= e.ms
    ensures WasReleased(Step(w, e, ttl).book, id) <==>
            WasReleased(w.book, id) || (e.op == TryRelease(id) && Result(w, e, ttl) >= 0)
    ensures e.op == TryRelease(id) && Result(w, e, ttl) >= 0 ==> !WasReleased(w.book, id)
  {
    PassedFits(w, id, now, e.ms);
  }

  lemma {:induction false} ReleasedOnce(w: World, run: seq<Timed>, id: string, now: nat, ttl: nat, limit: nat)
    requires Inv(w, now, ttl, limit) && Legal(w, run, now, ttl, limit)
    ensures Releases(w, run, id, ttl)
            == if !WasReleased(w.book, id) && WasReleased(After(w, run, ttl).book, id) then 1 else 0
    ensures WasReleased(w.book, id) ==> WasReleased(After(w, run, ttl).book, id)
    decreases |run|
  {
    if run != [] {
      assert Fits(w.l, w.book, id, now);
      ReleaseStep(w, run[0], id, now, ttl, limit);
      StepKeeps(w, run[0], now, ttl, limit);
      ReleasedOnce(Step(w, run[0], ttl), run[1..], id, run[0].ms, ttl, limit);
    }
  }

  /** A release reports the live leases plus those that ended and nobody has dropped yet. */
  lemma ReleaseCount(w: World, now: nat, limit: nat, id: string, ms: nat, ttl: nat)
    requires Inv(w, now, ttl, limit) && now <= ms
    requires Release(w.l, ms, id).count >= 0
    ensures
      var w' := Step(w, Timed(TryRelease(id), ms), ttl);
      Release(w.l, ms, id).count == |Live(w'.book, Sec(ms))| + |Ended(w'.l.scores, Sec(ms))|
  {
    var w' := Step(w, Timed(TryRelease(id), ms), ttl);
    StepKeeps(w, Timed(TryRelease(id), ms), now, ttl, limit);
    LiveIsHeld(w', ms, ms);
    Split(w'.l.scores, Sec(ms));
    assert AtTime(w'.l, ms).scores == w'.l.scores;
  }

  lemma Split(scores: map<string, int>, now: int)
    ensures |scores| == |Running(scores, now).Keys| + |Ended(scores, now)|
  {
    UnionCard(Running(scores, now).Keys, Ended(scores, now));
    assert scores.Keys == Running(scores, now).Keys + Ended(scores, now);
  }

  /** The count of active_count: the live leases, and those that ended since they were last dropped; so
      exactly the live ones if and only if none has. */
  lemma ActiveCount(w: World, now: nat, ms: nat)
    requires Booked(w, now) && now <= ms
    ensures
      var ended := Ended(AtTime(w.l, ms).scores, Sec(ms));
      && Card(w.l, ms).count == |Live(w.book, Sec(ms))| + |ended|
      && (Card(w.l, ms).count == |Live(w.book, Sec(ms))| <==> ended == {})
  {
    LiveIsHeld(w, now, ms);
    Split(AtTime(w.l, ms).scores, Sec(ms));
  }

  /** Within the second of the removal, and with nothing in between, none has. */
  lemma TrimmedCount(w: World, now: nat, trimAt: nat, countAt: nat, ttl: nat, limit: nat)
    requires Inv(w, now, ttl, limit) && now <= trimAt <= countAt && Sec(trimAt) == Sec(countAt)
    ensures
      var w' := Step(w, Timed(TrimEnded, trimAt), ttl);
      Card(w'.l, countAt).count == |Live(w'.book, Sec(countAt))|
  {
    var w' := Step(w, Timed(TrimEnded, trimAt), ttl);
    StepKeeps(w, Timed(TrimEnded, trimAt), now, ttl, limit);
    ActiveCount(w', trimAt, countAt);
    assert Ended(AtTime(w'.l, countAt).scores, Sec(countAt)) == {};
  }

  /** An acquire that succeeds reports the live leases, its own among them. */
  lemma AcquireCount(w: World, now: nat, limit: nat, id: string, max: int, ms: nat, ttl: nat)
    requires Inv(w, now, ttl, limit) && now <= ms && ttl > 0 && Allowed(w, Timed(TryAcquire(id, max), ms), limit)
    requires Result(w, Timed(TryAcquire(id, max), ms), ttl) != 0
    ensures
      var w' := Step(w, Timed(TryAcquire(id, max), ms), ttl);
      && Result(w, Timed(TryAcquire(id, max), ms), ttl) == |Live(w'.book, Sec(ms))| <= max
      && id in Live(w'.book, Sec(ms)) && Live(w'.book, Sec(ms)) - {id} == Live(w.book, Sec(ms))
  {
    var e := Timed(TryAcquire(id, max), ms);
    var w' := Step(w, e, ttl);
    StepKeeps(w, e, now, ttl, limit);
    LiveIsHeld(w, now, ms);
    LiveIsHeld(w', ms, ms);
    AcquireAdds(w.l, ms, ttl, id, max);
    StepRunsScript(w, e, ttl);
    assert |w'.l.scores| == |w'.l.scores.Keys|;
    assert id !in Holding(w.l, ms) by { assert Fits(w.l, w.book, id, now); }
  }

  /** An acquire is refused if and only if the live leases already fill its limit. */
  lemma RefusedIffFull(w: World, now: nat, id: string, max: int, ms: nat, ttl: nat)
    requires Booked(w, now) && now <= ms
    ensures Result(w, Timed(TryAcquire(id, max), ms), ttl) == 0 <==> |Live(w.book, Sec(ms))| >= max
  {
    LiveIsHeld(w, now, ms);
    assert |Holding(w.l, ms)| == |Holding(w.l, ms).Keys|;
    var left := Reap(AtTime(w.l, ms), Sec(ms));
    assert |Add(left, ms, ttl, id).scores.Keys| > 0;
  }
}
