/**
 The process-local login limiter (fusion_identity/ratelimit.py, `LoginRateLimiter`): one token
 bucket per key, refilled at max_tokens / window per second, with stale buckets swept and, when
 the table is full, the stalest one evicted.

 Token counts and times are reals: rounding is not modelled. Key strings are opaque.
 */
module LoginLimiter {
  import opened Util

  const MAX_BUCKETS := 8192

  datatype Bucket = Bucket(tokens: real, last: real)

  type Buckets = map<string, Bucket>

  /** refill is max / window, the tokens earned per second. */
  datatype Config = Config(max: real, window: real, refill: real)

  predicate Ok(c: Config) {
    c.max > 0.0 && c.window > 0.0 && c.refill > 0.0 && c.refill * c.window == c.max
  }

  function MinReal(a: real, b: real): real {
    if a < b then a else b
  }

  /** The tokens of a bucket at a later time. */
  function Level(b: Bucket, now: real, c: Config): real
    requires Ok(c)
  {
    MinReal(c.max, b.tokens + (now - b.last) * c.refill)
  }

  predicate Admits(b: Bucket, now: real, c: Config)
    requires Ok(c)
  {
    Level(b, now, c) >= 1.0
  }

  function Drawn(b: Bucket, now: real, c: Config): Bucket
    requires Ok(c)
  {
    Bucket(if Admits(b, now, c) then Level(b, now, c) - 1.0 else Level(b, now, c), now)
  }

  predicate Stale(b: Bucket, now: real, c: Config) {
    now - b.last > c.window * 2.0
  }

  function Sweep(bs: Buckets, now: real, c: Config): Buckets {
    map k | k in bs && !Stale(bs[k], now, c) :: bs[k]
  }

  /** The table a new key finds: swept if it was full. */
  function Room(bs: Buckets, key: string, now: real, c: Config): Buckets {
    if key !in bs && |bs| >= MAX_BUCKETS then Sweep(bs, now, c) else bs
  }

  /** Must a living bucket go to make room? */
  predicate Crowded(bs: Buckets, key: string, now: real, c: Config) {
    key !in bs && |Room(bs, key, now, c)| >= MAX_BUCKETS
  }

  predicate Stalest(bs: Buckets, k: string) {
    k in bs && forall j :: j in bs ==> bs[k].last <= bs[j].last
  }

  /** The bucket a consumption draws from; a new one is full. */
  function BucketOf(bs: Buckets, key: string, now: real, c: Config): Bucket {
    if key in bs then bs[key] else Bucket(c.max, now)
  }

  function Consumed(bs: Buckets, key: string, now: real, c: Config, evicted: set<string>): Buckets
    requires Ok(c)
  {
    var room := Room(bs, key, now, c) - evicted;
    room[key := Drawn(BucketOf(room, key, now, c), now, c)]
  }

  class LoginRateLimiter {
    const c: Config
    var buckets: Buckets

    constructor (max: real, window: real)
      requires window > 0.0
      ensures c.max == max && c.window == window && (max > 0.0 ==> Ok(c)) && buckets == map[]
    {
      c, buckets := Config(max, window, max / window), map[];
      Quotient(max, window);
    }

    method SweepStale(now: real)
      modifies this
      ensures buckets == Sweep(old(buckets), now, c)
      ensures forall k :: k in buckets <==> k in old(buckets) && now - old(buckets)[k].last <= 2.0 * c.window
      ensures forall k :: k in buckets ==> buckets[k] == old(buckets)[k]
    {
      var before := buckets;
      var stale := set k | k in buckets && Stale(buckets[k], now, c);
      while stale != {}
        invariant forall k :: k in buckets <==> k in before && (Stale(before[k], now, c) ==> k in stale)
        invariant forall k :: k in buckets ==> buckets[k] == before[k]
        invariant forall k :: k in stale ==> k in before && Stale(before[k], now, c)
        decreases stale
      {
        var k :| k in stale;
        buckets := buckets - {k};
        stale := stale - {k};
      }
    }

    /** min over the table by `last`. */
    method FindStalest() returns (k: string)
      requires buckets != map[]
      ensures Stalest(buckets, k)
    {
      k :| k in buckets;
      var todo := buckets.Keys - {k};
      while todo != {}
        invariant k in buckets && todo <= buckets.Keys
        invariant forall j :: j in buckets && j !in todo ==> buckets[k].last <= buckets[j].last
        decreases todo
      {
        var j :| j in todo;
        if buckets[j].last < buckets[k].last { k := j; }
        todo := todo - {j};
      }
    }

    /** Sweep a full table for a new key, and evict the stalest bucket if that was not enough. */
    method MakeRoom(key: string, now: real) returns (ghost evicted: set<string>)
      modifies this
      ensures Yields(old(buckets), key, evicted, now, c)
      ensures buckets == Room(old(buckets), key, now, c) - evicted
    {
      evicted := {};
      if key !in buckets {
        if |buckets| >= MAX_BUCKETS {
          SweepStale(now);
        }
        if |buckets| >= MAX_BUCKETS {
          var oldest := FindStalest();
          evicted := {oldest};
          buckets := buckets - {oldest};
        }
      }
    }

    method Consume(key: string, now: real) returns (ok: bool, ghost evicted: set<string>)
      requires Ok(c)
      modifies this
      ensures Yields(old(buckets), key, evicted, now, c)
      ensures buckets == Consumed(old(buckets), key, now, c, evicted)
      ensures |old(buckets)| <= 8192 ==> |buckets| <= 8192
      ensures ok == Admits(BucketOf(Room(old(buckets), key, now, c) - evicted, key, now, c), now, c)
    {
      evicted := MakeRoom(key, now);
      ghost var room := buckets;
      assert room == Room(old(buckets), key, now, c) - evicted;
      var b := if key in buckets then buckets[key] else Bucket(c.max, now);
      var tokens := MinReal(c.max, b.tokens + (now - b.last) * c.refill);
      if tokens < 1.0 {
        buckets := buckets[key := Bucket(tokens, now)];
        ok := false;
      } else {
        buckets := buckets[key := Bucket(tokens - 1.0, now)];
        ok := true;
      }
      assert b == BucketOf(room, key, now, c) && buckets == room[key := Drawn(b, now, c)];
      if |old(buckets)| <= 8192 { StaysBounded(old(buckets), key, now, c, evicted); }
    }

    /** allow: the address bucket, then the account bucket; the first refusal ends it. `gone` is what
        had to be evicted for each key, nothing unless the table was crowded. */
    method Allow(keys: seq<string>, now: real) returns (ok: bool, ghost gone: seq<set<string>>)
      requires c.max > 0.0 ==> Ok(c)
      modifies this
      ensures c.max <= 0.0 ==> ok && buckets == old(buckets)
      ensures c.max > 0.0 ==>
                && |gone| <= |keys| && (ok ==> |gone| == |keys|)
                && Answer(buckets, ok) == Served(old(buckets), keys[..|gone|], gone, now, c)
                && forall j :: 0 <= j < |gone| ==> Evicts(old(buckets), keys, gone, j, now, c)
      ensures c.max > 0.0 && Calm(old(buckets), keys, now, c) ==>
              Answer(buckets, ok) == Allowed(old(buckets), keys, now, c)
      ensures |old(buckets)| <= 8192 ==> |buckets| <= 8192
    {
      gone := [];
      ok := true;
      if c.max <= 0.0 {
        return;
      }
      var i := 0;
      while i < |keys| && ok
        invariant 0 <= i == |gone| <= |keys|
        invariant Answer(buckets, ok) == Served(old(buckets), keys[..i], gone, now, c)
        invariant forall j :: 0 <= j < i ==> Evicts(old(buckets), keys, gone, j, now, c)
        invariant Calm(old(buckets), keys, now, c) ==>
                    && (ok ==> Calm(buckets, keys[i..], now, c))
                    && (ok ==> Allowed(old(buckets), keys, now, c) == Allowed(buckets, keys[i..], now, c))
                    && (!ok ==> Allowed(old(buckets), keys, now, c) == Answer(buckets, false))
        invariant |old(buckets)| <= 8192 ==> |buckets| <= 8192
      {
        ghost var before := buckets;
        ghost var evicted: set<string>;
        ok, evicted := Consume(keys[i], now);
        EvictionSpares(before, keys[i], now, c, evicted);
        assert keys[i..][0] == keys[i] && keys[i..][1..] == keys[i + 1..];
        ServeOne(old(buckets), keys, gone, before, evicted, now, c);
        gone := gone + [evicted];
        i := i + 1;
      }
    }
  }

  /** What makes room for a key: nothing unless the table is crowded, and then one stalest bucket. */
  predicate Yields(bs: Buckets, key: string, evicted: set<string>, now: real, c: Config) {
    && (evicted != {} <==> Crowded(bs, key, now, c))
    && forall k :: k in evicted ==> evicted == {k} && Stalest(Room(bs, key, now, c), k)
  }

  /** A request's keys in order, with what was evicted for each, up to the first refusal. */
  function Served(bs: Buckets, keys: seq<string>, gone: seq<set<string>>, now: real, c: Config): Answer
    requires Ok(c) && |keys| == |gone|
    decreases |keys|
  {
    if keys == [] then Answer(bs, true)
    else
      var a := Served(bs, Init(keys), Init(gone), now, c);
      if !a.ok then a
      else Answer(Consumed(a.buckets, Last(keys), now, c, Last(gone)),
        Admits(BucketOf(a.buckets, Last(keys), now, c), now, c))
  }

  predicate Evicts(bs: Buckets, keys: seq<string>, gone: seq<set<string>>, j: nat, now: real, c: Config)
    requires Ok(c) && |gone| <= |keys| && j < |gone|
  {
    var a := Served(bs, keys[..j], gone[..j], now, c);
    a.ok && Yields(a.buckets, keys[j], gone[j], now, c)
  }

  /** An eviction for a key leaves that key's own bucket alone. */
  lemma EvictionSpares(bs: Buckets, key: string, now: real, c: Config, evicted: set<string>)
    requires Yields(bs, key, evicted, now, c)
    ensures BucketOf(Room(bs, key, now, c) - evicted, key, now, c) == BucketOf(bs, key, now, c)
    ensures !Crowded(bs, key, now, c) ==> evicted == {}
  {
    if key in bs { assert evicted == {} && bs - {} == bs; }
  }

  lemma ServeOne(bs: Buckets, keys: seq<string>, gone: seq<set<string>>, before: Buckets, evicted: set<string>,
                 now: real, c: Config)
    requires Ok(c) && |gone| < |keys| && Served(bs, keys[..|gone|], gone, now, c) == Answer(before, true)
    requires Yields(before, keys[|gone|], evicted, now, c)
    requires forall j :: 0 <= j < |gone| ==> Evicts(bs, keys, gone, j, now, c)
    ensures
      var key := keys[|gone|];
      && Served(bs, keys[..|gone| + 1], gone + [evicted], now, c) ==
           Answer(Consumed(before, key, now, c, evicted), Admits(BucketOf(before, key, now, c), now, c))
      && forall j :: 0 <= j < |gone| + 1 ==> Evicts(bs, keys, gone + [evicted], j, now, c)
  {
    var n := |gone|;
    assert Init(keys[..n + 1]) == keys[..n] && Init(gone + [evicted]) == gone;
    forall j | 0 <= j < n + 1 ensures Evicts(bs, keys, gone + [evicted], j, now, c) {
      if j < n {
        assert Evicts(bs, keys, gone, j, now, c);
        assert (gone + [evicted])[..j] == gone[..j];
      } else {
        assert (gone + [evicted])[..n] == gone;
      }
    }
  }

  datatype Answer = Answer(buckets: Buckets, ok: bool)

  /** A request's keys in order, up to the first refusal. */
  function Allowed(bs: Buckets, keys: seq<string>, now: real, c: Config): Answer
    requires Ok(c)
    decreases |keys|
  {
    if keys == [] then Answer(bs, true)
    else if Admits(BucketOf(bs, keys[0], now, c), now, c)
      then Allowed(Consumed(bs, keys[0], now, c, {}), keys[1..], now, c)
    else Answer(Consumed(bs, keys[0], now, c, {}), false)
  }

  /** No living bucket has to go during the request. */
  predicate Calm(bs: Buckets, keys: seq<string>, now: real, c: Config)
    decreases |keys|
  {
    && Ok(c)
    && (keys != [] ==>
          && !Crowded(bs, keys[0], now, c)
          && (Admits(BucketOf(bs, keys[0], now, c), now, c) ==>
            Calm(Consumed(bs, keys[0], now, c, {}), keys[1..], now, c)))
  }

  lemma SweepShrinks(bs: Buckets, now: real, c: Config)
    ensures |Sweep(bs, now, c)| <= |bs|
  {
    assert Sweep(bs, now, c).Keys <= bs.Keys;
    SubsetCard(Sweep(bs, now, c).Keys, bs.Keys);
  }

  /** The table never grows beyond its cap. */
  lemma StaysBounded(bs: Buckets, key: string, now: real, c: Config, evicted: set<string>)
    requires Ok(c) && |bs| <= 8192
    requires evicted != {} <==> Crowded(bs, key, now, c)
    requires evicted <= Room(bs, key, now, c).Keys
    ensures |Consumed(bs, key, now, c, evicted)| <= 8192
  {
    SweepShrinks(bs, now, c);
    OneInOneOut(Room(bs, key, now, c).Keys, evicted, key, 8192);
    ConsumedKeys(bs, key, now, c, evicted);
  }

  lemma ConsumedKeys(bs: Buckets, key: string, now: real, c: Config, evicted: set<string>)
    requires Ok(c)
    ensures Consumed(bs, key, now, c, evicted).Keys == Room(bs, key, now, c).Keys - evicted + {key}
  {
  }

  lemma OneInOneOut<T>(s: set<T>, gone: set<T>, x: T, cap: nat)
    requires |s| <= cap && gone <= s
    requires gone == {} ==> x in s || |s| < cap
    ensures |s - gone + {x}| <= cap
  {
    if gone == {} {
      assert s - gone + {x} == s + {x};
      if x in s { assert s + {x} == s; }
    } else {
      var g :| g in gone;
      SubsetCard(s - gone, s - {g});
      if x in s - gone { assert s - gone + {x} == s - gone; }
    }
  }

  // ----- The limiter that never forgets -----

  function FreeConsumed(fs: Buckets, key: string, now: real, c: Config): Buckets
    requires Ok(c)
  {
    fs[key := Drawn(BucketOf(fs, key, now, c), now, c)]
  }

  function FreeAllowed(fs: Buckets, keys: seq<string>, now: real, c: Config): Answer
    requires Ok(c)
    decreases |keys|
  {
    if keys == [] then Answer(fs, true)
    else if Admits(BucketOf(fs, keys[0], now, c), now, c)
      then FreeAllowed(FreeConsumed(fs, keys[0], now, c), keys[1..], now, c)
    else Answer(FreeConsumed(fs, keys[0], now, c), false)
  }

  /** Requests and sweeps over time. */
  datatype Event = Request(keys: seq<string>, at: real) | SweepAt(at: real)

  predicate Timed(events: seq<Event>, now: real) {
    && (forall i :: 0 <= i < |events| ==> now <= events[i].at)
    && (forall i, j :: 0 <= i < j < |events| ==> events[i].at <= events[j].at)
  }

  function Next(bs: Buckets, e: Event, c: Config): Answer
    requires Ok(c)
  {
    match e
    case Request(keys, at) => Allowed(bs, keys, at, c)
    case SweepAt(at) => Answer(Sweep(bs, at, c), true)
  }

  function FreeNext(fs: Buckets, e: Event, c: Config): Answer
    requires Ok(c)
  {
    match e
    case Request(keys, at) => FreeAllowed(fs, keys, at, c)
    case SweepAt(_) => Answer(fs, true)
  }

  /** The answers of the swept limiter along a trace, and of the one that never forgets. */
  function Answers(bs: Buckets, events: seq<Event>, c: Config): seq<bool>
    requires Ok(c)
    decreases |events|
  {
    if events == [] then [] else [Next(bs, events[0], c).ok] + Answers(Next(bs, events[0], c).buckets, events[1..], c)
  }

  function FreeAnswers(fs: Buckets, events: seq<Event>, c: Config): seq<bool>
    requires Ok(c)
    decreases |events|
  {
    if events == [] then []
    else [FreeNext(fs, events[0], c).ok] + FreeAnswers(FreeNext(fs, events[0], c).buckets, events[1..], c)
  }

  /** No request of the trace has to evict a living bucket. */
  predicate CalmTrace(bs: Buckets, events: seq<Event>, c: Config)
    requires Ok(c)
    decreases |events|
  {
    events != [] ==>
      && (events[0].Request? ==> Calm(bs, events[0].keys, events[0].at, c))
      && CalmTrace(Next(bs, events[0], c).buckets, events[1..], c)
  }

  predicate Sound(b: Bucket, now: real, c: Config) {
    0.0 <= b.tokens <= c.max && b.last <= now
  }

  predicate Full(b: Bucket, now: real, c: Config)
    requires Ok(c)
  {
    b.tokens + (now - b.last) * c.refill >= c.max
  }

  /** The swept table is the full one without buckets that are full again by now. */
  predicate Sim(bs: Buckets, fs: Buckets, now: real, c: Config) {
    && Ok(c)
    && (forall k :: k in bs ==> k in fs && fs[k] == bs[k])
    && (forall k :: k in fs ==> Sound(fs[k], now, c) && (k !in bs ==> Full(fs[k], now, c)))
  }

  lemma MulMono(a: real, b: real, r: real)
    requires a <= b && 0.0 <= r
    ensures a * r <= b * r
  {
  }

  lemma Gain(last: real, now: real, r: real)
    requires last <= now && 0.0 <= r
    ensures (now - last) * r >= 0.0
  {
  }

  lemma Quotient(max: real, window: real)
    requires window > 0.0
    ensures max / window * window == max && (max > 0.0 ==> max / window > 0.0)
  {
  }

  lemma FullLater(b: Bucket, now: real, later: real, c: Config)
    requires Ok(c) && Full(b, now, c) && now <= later
    ensures Full(b, later, c)
  {
    MulMono(now - b.last, later - b.last, c.refill);
  }

  /** A bucket idle for over two windows is full again. */
  lemma StaleIsFull(b: Bucket, now: real, c: Config)
    requires Ok(c) && Sound(b, now, c) && Stale(b, now, c)
    ensures Full(b, now, c)
  {
    MulMono(c.window * 2.0, now - b.last, c.refill);
  }

  lemma SimLater(bs: Buckets, fs: Buckets, now: real, later: real, c: Config)
    requires Sim(bs, fs, now, c) && now <= later
    ensures Sim(bs, fs, later, c)
  {
    forall k | k in fs && k !in bs ensures Full(fs[k], later, c) {
      FullLater(fs[k], now, later, c);
    }
  }

  lemma SimSweep(bs: Buckets, fs: Buckets, now: real, c: Config)
    requires Sim(bs, fs, now, c)
    ensures Sim(Sweep(bs, now, c), fs, now, c)
  {
    forall k | k in bs && Stale(bs[k], now, c) ensures Full(bs[k], now, c) {
      StaleIsFull(bs[k], now, c);
    }
  }

  lemma DrawnIsSound(b: Bucket, now: real, c: Config)
    requires Ok(c) && Sound(b, now, c)
    ensures Sound(Drawn(b, now, c), now, c) && Level(b, now, c) >= 0.0
  {
    Gain(b.last, now, c.refill);
    var gain := (now - b.last) * c.refill;
    assert Level(b, now, c) == MinReal(c.max, b.tokens + gain) >= 0.0;
  }

  /** A forgotten bucket that is full again answers like a new one. */
  lemma FullIsNew(b: Bucket, now: real, c: Config)
    requires Ok(c) && Full(b, now, c)
    ensures Level(b, now, c) == Level(Bucket(c.max, now), now, c) == c.max
  {
  }

  lemma SimConsume(bs: Buckets, fs: Buckets, key: string, now: real, c: Config)
    requires Sim(bs, fs, now, c) && !Crowded(bs, key, now, c)
    ensures Admits(BucketOf(bs, key, now, c), now, c) == Admits(BucketOf(fs, key, now, c), now, c)
    ensures Sim(Consumed(bs, key, now, c, {}), FreeConsumed(fs, key, now, c), now, c)
  {
    var room := Room(bs, key, now, c);
    SimSweep(bs, fs, now, c);
    assert room - {} == room;
    if key in fs && key !in room { FullIsNew(fs[key], now, c); }
    assert Drawn(BucketOf(room, key, now, c), now, c) == Drawn(BucketOf(fs, key, now, c), now, c);
    DrawnIsSound(BucketOf(fs, key, now, c), now, c);
  }

  lemma {:induction false} SimAllow(bs: Buckets, fs: Buckets, keys: seq<string>, now: real, c: Config)
    requires Sim(bs, fs, now, c) && Calm(bs, keys, now, c)
    ensures Allowed(bs, keys, now, c).ok == FreeAllowed(fs, keys, now, c).ok
    ensures Sim(Allowed(bs, keys, now, c).buckets, FreeAllowed(fs, keys, now, c).buckets, now, c)
    decreases |keys|
  {
    if keys != [] {
      SimConsume(bs, fs, keys[0], now, c);
      if Admits(BucketOf(bs, keys[0], now, c), now, c) {
        SimAllow(Consumed(bs, keys[0], now, c, {}), FreeConsumed(fs, keys[0], now, c), keys[1..], now, c);
      }
    }
  }

  /** On every trace that never evicts a living bucket, sweeping changes no answer. */
  lemma {:induction false} SweptRefinesFree(bs: Buckets, fs: Buckets, events: seq<Event>, now: real, c: Config)
    requires Sim(bs, fs, now, c) && Timed(events, now) && CalmTrace(bs, events, c)
    ensures Answers(bs, events, c) == FreeAnswers(fs, events, c)
    decreases |events|
  {
    if events != [] {
      var e := events[0];
      SimLater(bs, fs, now, e.at, c);
      match e {
        case Request(keys, at) => SimAllow(bs, fs, keys, at, c);
        case SweepAt(at) => SimSweep(bs, fs, at, c);
      }
      SweptRefinesFree(Next(bs, e, c).buckets, FreeNext(fs, e, c).buckets, events[1..], e.at, c);
    }
  }

  // ----- The rate -----

  /** How many requests of a trace that draw on a key were let through. */
  function Passed(answers: seq<bool>, events: seq<Event>, key: string): nat
    requires |answers| == |events|
    decreases |events|
  {
    if events == [] then 0
    else
      (if answers[0] && events[0].Request? && key in events[0].keys then 1 else 0)
      + Passed(answers[1..], events[1..], key)
  }

  lemma {:induction false} AsManyAnswers(bs: Buckets, events: seq<Event>, c: Config)
    requires Ok(c)
    ensures |FreeAnswers(bs, events, c)| == |events|
    decreases |events|
  {
    if events != [] { AsManyAnswers(FreeNext(bs, events[0], c).buckets, events[1..], c); }
  }

  predicate AllSound(fs: Buckets, now: real, c: Config) {
    forall k :: k in fs ==> Sound(fs[k], now, c)
  }

  /** The tokens available to a key. */
  function Available(fs: Buckets, key: string, now: real, c: Config): real
    requires Ok(c)
  {
    Level(BucketOf(fs, key, now, c), now, c)
  }

  /** The tokens earned up to a time. */
  function Worth(t: real, c: Config): real {
    t * c.refill
  }

  lemma Spread(a: real, b: real, c: Config)
    ensures (b - a) * c.refill == Worth(b, c) - Worth(a, c)
  {
  }

  /** Waiting earns at most the refill. */
  lemma AvailableLater(fs: Buckets, key: string, now: real, later: real, c: Config)
    requires Ok(c) && AllSound(fs, now, c) && now <= later
    ensures AllSound(fs, later, c)
    ensures 0.0 <= Available(fs, key, later, c) <= Available(fs, key, now, c) + Worth(later, c) - Worth(now, c)
  {
    Spread(now, later, c);
    Gain(now, later, c.refill);
    if key in fs {
      DrawnIsSound(fs[key], later, c);
      Distributes(fs[key].last, now, later, c.refill);
    } else {
      LevelNow(Bucket(c.max, now), c);
      LevelNow(Bucket(c.max, later), c);
    }
  }

  /** A passed request took a token from each of its keys, and no request gives one back. */
  lemma {:induction false} RequestDraws(fs: Buckets, keys: seq<string>, key: string, now: real, c: Config)
    requires Ok(c) && AllSound(fs, now, c)
    ensures
      var a := FreeAllowed(fs, keys, now, c);
      && AllSound(a.buckets, now, c)
      && Available(a.buckets, key, now, c) <= Available(fs, key, now, c) - (if a.ok && key in keys then 1.0 else 0.0)
    decreases |keys|
  {
    if keys != [] {
      var fs' := FreeConsumed(fs, keys[0], now, c);
      DrawTakes(fs, keys[0], key, now, c);
      if Admits(BucketOf(fs, keys[0], now, c), now, c) {
        RequestDraws(fs', keys[1..], key, now, c);
        assert key in keys ==> key == keys[0] || key in keys[1..];
      }
    }
  }

  lemma LevelNow(b: Bucket, c: Config)
    requires Ok(c) && b.tokens <= c.max
    ensures Level(b, b.last, c) == b.tokens
  {
    assert (b.last - b.last) * c.refill == 0.0;
  }

  lemma DrawTakes(fs: Buckets, drawn: string, key: string, now: real, c: Config)
    requires Ok(c) && AllSound(fs, now, c)
    ensures AllSound(FreeConsumed(fs, drawn, now, c), now, c)
    ensures Available(FreeConsumed(fs, drawn, now, c), key, now, c) ==
            Available(fs, key, now, c)
            - (if key == drawn && Admits(BucketOf(fs, drawn, now, c), now, c) then 1.0 else 0.0)
  {
    var b := BucketOf(fs, drawn, now, c);
    DrawnIsSound(b, now, c);
    LevelNow(Drawn(b, now, c), c);
  }

  /** What a key may still let through until the end: its tokens and its earnings. */
  function Budget(fs: Buckets, key: string, now: real, end: real, c: Config): real
    requires Ok(c)
  {
    Available(fs, key, now, c) + Worth(end, c) - Worth(now, c)
  }

  lemma AtMostFull(fs: Buckets, key: string, now: real, end: real, c: Config)
    requires Ok(c)
    ensures Budget(fs, key, now, end, c) <= c.max + Worth(end, c) - Worth(now, c)
  {
    assert Available(fs, key, now, c) <= c.max;
  }

  lemma BudgetIsNatural(fs: Buckets, key: string, now: real, end: real, c: Config)
    requires Ok(c) && AllSound(fs, now, c) && now <= end
    ensures Budget(fs, key, now, end, c) >= 0.0
  {
    AvailableLater(fs, key, now, now, c);
    Gain(now, end, c.refill);
    Spread(now, end, c);
  }

  lemma {:induction false} FreeRate(fs: Buckets, events: seq<Event>, key: string, now: real, end: real, c: Config)
    requires Ok(c) && AllSound(fs, now, c) && Timed(events, now) && now <= end
    requires forall i :: 0 <= i < |events| ==> events[i].at <= end
    ensures |FreeAnswers(fs, events, c)| == |events|
    ensures Passed(FreeAnswers(fs, events, c), events, key) as real <= Budget(fs, key, now, end, c)
    decreases |events|
  {
    AsManyAnswers(fs, events, c);
    if events == [] {
      BudgetIsNatural(fs, key, now, end, c);
    } else {
      var e := events[0];
      EventDraws(fs, e, key, now, c);
      FreeRate(FreeNext(fs, e, c).buckets, events[1..], key, e.at, end, c);
      PassedStep(fs, events, key, c);
    }
  }

  function Hit(fs: Buckets, e: Event, key: string, c: Config): nat
    requires Ok(c)
  {
    if FreeNext(fs, e, c).ok && e.Request? && key in e.keys then 1 else 0
  }

  lemma EventDraws(fs: Buckets, e: Event, key: string, now: real, c: Config)
    requires Ok(c) && AllSound(fs, now, c) && now <= e.at
    ensures
      var fs' := FreeNext(fs, e, c).buckets;
      && AllSound(fs', e.at, c)
      && Available(fs', key, e.at, c) + Hit(fs, e, key, c) as real <= Available(fs, key, now, c)
        + Worth(e.at, c) - Worth(now, c)
  {
    AvailableLater(fs, key, now, e.at, c);
    if e.Request? { RequestDraws(fs, e.keys, key, e.at, c); }
  }

  lemma PassedStep(fs: Buckets, events: seq<Event>, key: string, c: Config)
    requires Ok(c) && events != []
    requires |FreeAnswers(fs, events, c)| == |events|
    ensures
      var a := FreeNext(fs, events[0], c);
      && |FreeAnswers(a.buckets, events[1..], c)| == |events[1..]|
      && Passed(FreeAnswers(fs, events, c), events, key) ==
         Hit(fs, events[0], key, c) + Passed(FreeAnswers(a.buckets, events[1..], c), events[1..], key)
  {
    assert FreeAnswers(fs, events, c)[1..] == FreeAnswers(FreeNext(fs, events[0], c).buckets, events[1..], c);
  }

  lemma Distributes(a: real, b: real, c: real, r: real)
    ensures (c - a) * r == (b - a) * r + (c - b) * r
  {
  }

  /**
   On every trace that never evicts a living bucket, whatever is swept on the way, a key lets
   through at most what its bucket holds and earns: never more than max + span * max / window.
   */
  lemma CalmRate(bs: Buckets, events: seq<Event>, key: string, now: real, end: real, c: Config)
    requires Ok(c) && AllSound(bs, now, c) && Timed(events, now) && CalmTrace(bs, events, c) && now <= end
    requires forall i :: 0 <= i < |events| ==> events[i].at <= end
    ensures |Answers(bs, events, c)| == |events|
    ensures Passed(Answers(bs, events, c), events, key) as real <= c.max + (end - now) * c.refill
  {
    SweptRefinesFree(bs, bs, events, now, c);
    FreeRate(bs, events, key, now, end, c);
    AtMostFull(bs, key, now, end, c);
    Spread(now, end, c);
  }

  // ----- The rate with evictions -----

  /** A request with what was evicted for each key it came to, or a sweep. */
  datatype Deed = Visit(keys: seq<string>, gone: seq<set<string>>, at: real) | Swept(at: real)

  function Done(bs: Buckets, e: Deed, c: Config): Answer
    requires Ok(c) && (e.Visit? ==> |e.gone| <= |e.keys|)
  {
    match e
    case Visit(keys, gone, at) => Served(bs, keys[..|gone|], gone, at, c)
    case Swept(at) => Answer(Sweep(bs, at, c), true)
  }

  /** What allow may do: it comes to all keys unless one refuses, and makes room as it must. */
  predicate Possible(bs: Buckets, e: Deed, c: Config) {
    && Ok(c)
    && (e.Visit? ==>
          && |e.gone| <= |e.keys| && (Done(bs, e, c).ok ==> |e.gone| == |e.keys|)
          && forall j :: 0 <= j < |e.gone| ==> Evicts(bs, e.keys, e.gone, j, e.at, c))
  }

  predicate Trace(bs: Buckets, deeds: seq<Deed>, now: real, end: real, c: Config)
    decreases |deeds|
  {
    if deeds == [] then now <= end
    else
      && now <= deeds[0].at && Possible(bs, deeds[0], c)
      && Trace(Done(bs, deeds[0], c).buckets, deeds[1..], deeds[0].at, end, c)
  }

  /** One if the deed is a request that draws on the key and is let through. */
  function Through(bs: Buckets, e: Deed, key: string, c: Config): nat
    requires Possible(bs, e, c)
  {
    if e.Visit? && key in e.keys && Done(bs, e, c).ok then 1 else 0
  }

  function AllThrough(bs: Buckets, deeds: seq<Deed>, key: string, now: real, end: real, c: Config): nat
    requires Trace(bs, deeds, now, end, c)
    decreases |deeds|
  {
    if deeds == [] then 0
    else
      Through(bs, deeds[0], key, c)
      + AllThrough(Done(bs, deeds[0], c).buckets, deeds[1..], key, deeds[0].at, end, c)
  }

  /** How often the key's bucket is evicted. */
  function Times(gone: seq<set<string>>, key: string): nat {
    if gone == [] then 0 else Times(Init(gone), key) + if key in Last(gone) then 1 else 0
  }

  function Losses(deeds: seq<Deed>, key: string): nat
    decreases |deeds|
  {
    if deeds == [] then 0 else (if deeds[0].Visit? then Times(deeds[0].gone, key) else 0) + Losses(deeds[1..], key)
  }

  lemma {:induction false} TimesNone(gone: seq<set<string>>, key: string)
    ensures Times(gone, key) == 0 <==> forall i :: 0 <= i < |gone| ==> key !in gone[i]
  {
    if gone != [] {
      TimesNone(Init(gone), key);
      assert forall i :: 0 <= i < |gone| - 1 ==> Init(gone)[i] == gone[i];
    }
  }

  /** No losses means that no visit evicted the key. */
  lemma {:induction false} LossesNone(deeds: seq<Deed>, key: string)
    ensures Losses(deeds, key) == 0 <==>
            forall i, j :: 0 <= i < |deeds| && deeds[i].Visit? && 0 <= j < |deeds[i].gone| ==> key !in deeds[i].gone[j]
    decreases |deeds|
  {
    if deeds != [] {
      if deeds[0].Visit? { TimesNone(deeds[0].gone, key); }
      LossesNone(deeds[1..], key);
      assert forall i :: 0 < i < |deeds| ==> deeds[1..][i - 1] == deeds[i];
    }
  }

  /** So many full buckets. */
  function Refund(n: nat, c: Config): real {
    n as real * c.max
  }

  lemma RefundAdds(n: nat, m: nat, c: Config)
    ensures Refund(n + m, c) == Refund(n, c) + Refund(m, c) && Refund(0, c) == 0.0 && Refund(1, c) == c.max
  {
  }

  /** A sweep leaves every key its tokens. */
  lemma SweepSpares(bs: Buckets, key: string, now: real, c: Config)
    requires Ok(c) && AllSound(bs, now, c)
    ensures Available(Sweep(bs, now, c), key, now, c) == Available(bs, key, now, c)
    ensures AllSound(Sweep(bs, now, c), now, c)
  {
    if key in bs && Stale(bs[key], now, c) {
      StaleIsFull(bs[key], now, c);
      FullIsNew(bs[key], now, c);
    }
  }

  lemma ConsumeDraws(bs: Buckets, drawn: string, evicted: set<string>, key: string, now: real, c: Config)
    requires Ok(c) && AllSound(bs, now, c) && Yields(bs, drawn, evicted, now, c)
    ensures
      var bs' := Consumed(bs, drawn, now, c, evicted);
      && AllSound(bs', now, c)
      && Available(bs', key, now, c)
         + (if key == drawn && Admits(BucketOf(bs, drawn, now, c), now, c) then 1.0 else 0.0)
         <= Available(bs, key, now, c) + (if key in evicted then c.max else 0.0)
  {
    var room := Room(bs, drawn, now, c);
    SweepSpares(bs, key, now, c);
    EvictionSpares(bs, drawn, now, c, evicted);
    DrawTakes(room - evicted, drawn, key, now, c);
    AvailableLater(bs, key, now, now, c);
    assert Available(room - evicted, key, now, c) <= c.max;
  }

  /** The tokens a key has left, and those taken from it, against those it had and was given back. */
  predicate Pays(bs: Buckets, bs': Buckets, taken: real, back: real, key: string, now: real, c: Config)
    requires Ok(c)
  {
    AllSound(bs', now, c) && Available(bs', key, now, c) + taken <= Available(bs, key, now, c) + back
  }

  function Taken(ok: bool, keys: seq<string>, key: string): real {
    if ok && key in keys then 1.0 else 0.0
  }

  lemma PaysOn(bs: Buckets, mid: Buckets, keys: seq<string>, drawn: string, evicted: set<string>, n: nat,
               key: string, now: real, c: Config)
    requires Ok(c) && Yields(mid, drawn, evicted, now, c)
    requires Pays(bs, mid, Taken(true, keys, key), Refund(n, c), key, now, c)
    ensures
      var ok := Admits(BucketOf(mid, drawn, now, c), now, c);
      Pays(bs, Consumed(mid, drawn, now, c, evicted), Taken(ok, keys + [drawn], key),
           Refund(n + if key in evicted then 1 else 0, c), key, now, c)
  {
    ConsumeDraws(mid, drawn, evicted, key, now, c);
    RefundAdds(n, if key in evicted then 1 else 0, c);
  }

  lemma ServedStep(bs: Buckets, keys: seq<string>, gone: seq<set<string>>, key: string, now: real, c: Config)
    requires Ok(c) && AllSound(bs, now, c) && |keys| == |gone| > 0
    requires
      var a := Served(bs, Init(keys), Init(gone), now, c);
      && a.ok && Yields(a.buckets, Last(keys), Last(gone), now, c)
      && Pays(bs, a.buckets, Taken(a.ok, Init(keys), key), Refund(Times(Init(gone), key), c), key, now, c)
    ensures
      var a := Served(bs, keys, gone, now, c);
      Pays(bs, a.buckets, Taken(a.ok, keys, key), Refund(Times(gone, key), c), key, now, c)
  {
    var a := Served(bs, Init(keys), Init(gone), now, c);
    PaysOn(bs, a.buckets, Init(keys), Last(keys), Last(gone), Times(Init(gone), key), key, now, c);
    assert keys == Init(keys) + [Last(keys)];
  }

  lemma EvictsInit(bs: Buckets, keys: seq<string>, gone: seq<set<string>>, now: real, c: Config)
    requires Ok(c) && |keys| == |gone| > 0
    requires forall j :: 0 <= j < |gone| ==> Evicts(bs, keys, gone, j, now, c)
    ensures forall j :: 0 <= j < |gone| - 1 ==> Evicts(bs, Init(keys), Init(gone), j, now, c)
    ensures
      var a := Served(bs, Init(keys), Init(gone), now, c);
      a.ok && Yields(a.buckets, Last(keys), Last(gone), now, c)
  {
    assert Evicts(bs, keys, gone, |gone| - 1, now, c);
    forall j | 0 <= j < |gone| - 1 ensures Evicts(bs, Init(keys), Init(gone), j, now, c) {
      assert Evicts(bs, keys, gone, j, now, c);
      assert Init(keys)[..j] == keys[..j] && Init(gone)[..j] == gone[..j];
    }
  }

  lemma {:induction false} ServedDraws(bs: Buckets, keys: seq<string>, gone: seq<set<string>>, key: string, now: real,
                                       c: Config)
    requires Ok(c) && AllSound(bs, now, c) && |keys| == |gone|
    requires forall j :: 0 <= j < |gone| ==> Evicts(bs, keys, gone, j, now, c)
    ensures
      var a := Served(bs, keys, gone, now, c);
      Pays(bs, a.buckets, Taken(a.ok, keys, key), Refund(Times(gone, key), c), key, now, c)
    decreases |keys|
  {
    if keys == [] {
      RefundAdds(0, 0, c);
    } else {
      EvictsInit(bs, keys, gone, now, c);
      ServedDraws(bs, Init(keys), Init(gone), key, now, c);
      ServedStep(bs, keys, gone, key, now, c);
    }
  }

  lemma DeedDraws(bs: Buckets, e: Deed, key: string, now: real, c: Config)
    requires Ok(c) && AllSound(bs, now, c) && now <= e.at && Possible(bs, e, c)
    ensures
      var bs' := Done(bs, e, c).buckets;
      && AllSound(bs', e.at, c)
      && Available(bs', key, e.at, c) + Through(bs, e, key, c) as real
         <= Available(bs, key, now, c) + Worth(e.at, c) - Worth(now, c) + Refund(Losses([e], key), c)
  {
    AvailableLater(bs, key, now, e.at, c);
    RefundAdds(0, 0, c);
    assert [e][1..] == [];
    if e.Visit? {
      var keys := e.keys[..|e.gone|];
      forall j | 0 <= j < |e.gone| ensures Evicts(bs, keys, e.gone, j, e.at, c) {
        assert Evicts(bs, e.keys, e.gone, j, e.at, c);
        assert keys[..j] == e.keys[..j];
      }
      ServedDraws(bs, keys, e.gone, key, e.at, c);
      assert Done(bs, e, c).ok ==> keys == e.keys;
    } else {
      SweepSpares(bs, key, e.at, c);
    }
  }

  lemma {:induction false} TraceRate(bs: Buckets, deeds: seq<Deed>, key: string, now: real, end: real, c: Config)
    requires Ok(c) && AllSound(bs, now, c) && Trace(bs, deeds, now, end, c)
    ensures now <= end
    ensures AllThrough(bs, deeds, key, now, end, c) as real
            <= Budget(bs, key, now, end, c) + Refund(Losses(deeds, key), c)
    decreases |deeds|
  {
    if deeds == [] {
      BudgetIsNatural(bs, key, now, end, c);
      RefundAdds(0, 0, c);
    } else {
      var e := deeds[0];
      DeedDraws(bs, e, key, now, c);
      TraceRate(Done(bs, e, c).buckets, deeds[1..], key, e.at, end, c);
      assert [e][0] == e && [e][1..] == [];
      RefundAdds(Losses([e], key), Losses(deeds[1..], key), c);
    }
  }

  /**
   On every trace, whatever is swept and evicted: a key lets through at most max tokens more for every
   time its own bucket was evicted than it holds and earns, that is (evictions + 1) * max + span * max /
   window.
   */
  lemma RateBound(bs: Buckets, deeds: seq<Deed>, key: string, now: real, end: real, c: Config)
    requires Ok(c) && AllSound(bs, now, c) && Trace(bs, deeds, now, end, c)
    ensures AllThrough(bs, deeds, key, now, end, c) as real
            <= Refund(Losses(deeds, key) + 1, c) + (end - now) * c.refill
  {
    var losses := Losses(deeds, key);
    TraceRate(bs, deeds, key, now, end, c);
    AtMostFull(bs, key, now, end, c);
    Spread(now, end, c);
    RefundAdds(losses, 1, c);
  }

  // ----- Evictions -----

  lemma FreeSimConsume(fs: Buckets, gs: Buckets, key: string, now: real, c: Config)
    requires Sim(fs, gs, now, c)
    ensures Admits(BucketOf(fs, key, now, c), now, c) == Admits(BucketOf(gs, key, now, c), now, c)
    ensures Sim(FreeConsumed(fs, key, now, c), FreeConsumed(gs, key, now, c), now, c)
  {
    if key in gs && key !in fs { FullIsNew(gs[key], now, c); }
    assert Drawn(BucketOf(fs, key, now, c), now, c) == Drawn(BucketOf(gs, key, now, c), now, c);
    DrawnIsSound(BucketOf(gs, key, now, c), now, c);
  }

  lemma {:induction false} FreeSimAllow(fs: Buckets, gs: Buckets, keys: seq<string>, now: real, c: Config)
    requires Sim(fs, gs, now, c)
    ensures FreeAllowed(fs, keys, now, c).ok == FreeAllowed(gs, keys, now, c).ok
    ensures Sim(FreeAllowed(fs, keys, now, c).buckets, FreeAllowed(gs, keys, now, c).buckets, now, c)
    decreases |keys|
  {
    if keys != [] {
      FreeSimConsume(fs, gs, keys[0], now, c);
      if Admits(BucketOf(fs, keys[0], now, c), now, c) {
        FreeSimAllow(FreeConsumed(fs, keys[0], now, c), FreeConsumed(gs, keys[0], now, c), keys[1..], now, c);
      }
    }
  }

  lemma {:induction false} FreeSimRun(fs: Buckets, gs: Buckets, events: seq<Event>, now: real, c: Config)
    requires Sim(fs, gs, now, c) && Timed(events, now)
    ensures FreeAnswers(fs, events, c) == FreeAnswers(gs, events, c)
    decreases |events|
  {
    if events != [] {
      var e := events[0];
      SimLater(fs, gs, now, e.at, c);
      if e.Request? { FreeSimAllow(fs, gs, e.keys, e.at, c); }
      FreeSimRun(FreeNext(fs, e, c).buckets, FreeNext(gs, e, c).buckets, events[1..], e.at, c);
    }
  }

  /** With less than one token in all, only a request without keys is let through. */
  lemma {:induction false} NeverAdmits(fs: Buckets, gs: Buckets, events: seq<Event>, c: Config)
    requires Ok(c) && c.max < 1.0
    ensures FreeAnswers(fs, events, c) == FreeAnswers(gs, events, c)
    decreases |events|
  {
    if events != [] {
      NeverAdmits(FreeNext(fs, events[0], c).buckets, FreeNext(gs, events[0], c).buckets, events[1..], c);
    }
  }

  lemma AnswersOf(fs: Buckets, e: Event, rest: seq<Event>, c: Config)
    requires Ok(c)
    ensures FreeAnswers(fs, [e] + rest, c) == [FreeNext(fs, e, c).ok] + FreeAnswers(FreeNext(fs, e, c).buckets, rest, c)
  {
    assert ([e] + rest)[1..] == rest;
  }

  /** One request with one key. */
  lemma SingleKey(fs: Buckets, key: string, at: real, c: Config)
    requires Ok(c)
    ensures
      var a := FreeNext(fs, Request([key], at), c);
      a.ok == (Available(fs, key, at, c) >= 1.0) && a.buckets == FreeConsumed(fs, key, at, c)
  {
    var fs' := FreeConsumed(fs, key, at, c);
    assert [key][1..] == [] && FreeAllowed(fs', [], at, c) == Answer(fs', true);
  }

  /** A bucket below one token has exactly its earnings more a little later. */
  lemma Earns(fs: Buckets, key: string, now: real, wait: real, c: Config)
    requires Ok(c) && c.max >= 1.0 && AllSound(fs, now, c) && wait >= 0.0
    requires Available(fs, key, now, c) + wait * c.refill <= 1.0 && Available(fs, key, now, c) < 1.0
    ensures Available(fs, key, now + wait, c) == Available(fs, key, now, c) + wait * c.refill
  {
    if key in fs {
      Distributes(fs[key].last, now, now + wait, c.refill);
    } else {
      LevelNow(Bucket(c.max, now), c);
    }
  }

  lemma TimeToEarn(x: real, r: real) returns (wait: real)
    requires x >= 0.0 && r > 0.0
    ensures wait >= 0.0 && wait * r == x
  {
    wait := x / r;
  }

  /** Two tables in which a key has different tokens answer some trace differently: drain the key, then
      wait until only the fuller one has a token again. */
  lemma {:induction false} Distinguish(fs: Buckets, gs: Buckets, key: string, now: real, c: Config)
    returns (events: seq<Event>)
    requires Ok(c) && c.max >= 1.0 && AllSound(fs, now, c) && AllSound(gs, now, c)
    requires 0.0 <= Available(fs, key, now, c) < Available(gs, key, now, c)
    ensures Timed(events, now) && FreeAnswers(fs, events, c) != FreeAnswers(gs, events, c)
    decreases Available(fs, key, now, c).Floor
  {
    var a, b := Available(fs, key, now, c), Available(gs, key, now, c);
    if a >= 1.0 {
      var e := Request([key], now);
      SingleKey(fs, key, now, c);
      SingleKey(gs, key, now, c);
      DrawTakes(fs, key, key, now, c);
      DrawTakes(gs, key, key, now, c);
      var rest := Distinguish(FreeConsumed(fs, key, now, c), FreeConsumed(gs, key, now, c), key, now, c);
      AnswersOf(fs, e, rest, c);
      AnswersOf(gs, e, rest, c);
      events := [e] + rest;
      assert FreeAnswers(fs, events, c)[1..] != FreeAnswers(gs, events, c)[1..];
    } else if b >= 1.0 {
      events := LastRequest(fs, gs, key, now, c);
    } else {
      var wait := TimeToEarn(1.0 - b, c.refill);
      Earns(fs, key, now, wait, c);
      Earns(gs, key, now, wait, c);
      events := LastRequest(fs, gs, key, now + wait, c);
    }
  }

  lemma LastRequest(fs: Buckets, gs: Buckets, key: string, at: real, c: Config) returns (events: seq<Event>)
    requires Ok(c) && Available(fs, key, at, c) < 1.0 <= Available(gs, key, at, c)
    ensures events == [Request([key], at)] && FreeAnswers(fs, events, c) != FreeAnswers(gs, events, c)
  {
    SingleKey(fs, key, at, c);
    SingleKey(gs, key, at, c);
    events := [Request([key], at)];
    assert events == [Request([key], at)] + [];
    AnswersOf(fs, Request([key], at), [], c);
    AnswersOf(gs, Request([key], at), [], c);
    assert FreeAnswers(fs, events, c)[0] != FreeAnswers(gs, events, c)[0];
  }

  /** Evicting a living bucket changes no answer on any later trace if and only if that bucket is full
      again, or no bucket ever holds a whole token. */
  lemma EvictionIsExactIff(bs: Buckets, gone: string, now: real, c: Config)
    requires Ok(c) && gone in bs && AllSound(bs, now, c)
    ensures (forall events | Timed(events, now) :: FreeAnswers(bs - {gone}, events, c) == FreeAnswers(bs, events, c))
            <==> Full(bs[gone], now, c) || c.max < 1.0
  {
    if c.max < 1.0 {
      forall events | Timed(events, now) ensures FreeAnswers(bs - {gone}, events, c) == FreeAnswers(bs, events, c) {
        NeverAdmits(bs - {gone}, bs, events, c);
      }
    } else if Full(bs[gone], now, c) {
      assert Sim(bs - {gone}, bs, now, c);
      forall events | Timed(events, now) ensures FreeAnswers(bs - {gone}, events, c) == FreeAnswers(bs, events, c) {
        FreeSimRun(bs - {gone}, bs, events, now, c);
      }
    } else {
      LevelNow(Bucket(c.max, now), c);
      DrawnIsSound(bs[gone], now, c);
      var events := Distinguish(bs, bs - {gone}, gone, now, c);
      assert Timed(events, now);
    }
  }

  /** The n-th of a flood of keys. */
  function Stranger(n: nat): string {
    seq(n, _ => '|')
  }

  /** The table after n requests of different keys at time 0. */
  function Flooded(n: nat, c: Config): Buckets
    requires Ok(c)
  {
    if n == 0 then map[] else Next(Flooded(n - 1, c), Request([Stranger(n - 1)], 0.0), c).buckets
  }

  /** One more stranger, while the table has room. */
  lemma OneMoreStranger(bs: Buckets, key: string, c: Config)
    requires Ok(c) && c.max >= 1.0 && key !in bs && |bs| < 8192
    ensures Next(bs, Request([key], 0.0), c).buckets == bs[key := Bucket(c.max - 1.0, 0.0)]
  {
    LevelNow(Bucket(c.max, 0.0), c);
    assert Room(bs, key, 0.0, c) - {} == bs;
    var bs' := Consumed(bs, key, 0.0, c, {});
    assert [key][1..] == [] && Allowed(bs', [], 0.0, c) == Answer(bs', true);
  }

  lemma {:induction false} FloodedTable(n: nat, c: Config)
    requires Ok(c) && c.max >= 1.0 && n <= 8192
    ensures |Flooded(n, c)| == n
    ensures forall k :: k in Flooded(n, c) ==> |k| < n && Flooded(n, c)[k] == Bucket(c.max - 1.0, 0.0)
  {
    if n > 0 {
      FloodedTable(n - 1, c);
      OneMoreStranger(Flooded(n - 1, c), Stranger(n - 1), c);
    }
  }

  /** Such an eviction is real: 8192 keys in one instant fill the table with buckets that have given a
      token, so one more key evicts one of them, and some later trace is answered differently. */
  lemma FloodEvicts(c: Config, gone: string)
    requires Ok(c) && c.max >= 1.0 && gone in Flooded(8192, c)
    ensures
      var bs := Flooded(8192, c);
      && Crowded(bs, Stranger(8192), 0.0, c) && Stalest(Room(bs, Stranger(8192), 0.0, c), gone)
      && exists events :: Timed(events, 0.0) && FreeAnswers(bs - {gone}, events, c) != FreeAnswers(bs, events, c)
  {
    var bs := Flooded(8192, c);
    FloodedTable(8192, c);
    assert Sweep(bs, 0.0, c) == bs;
    assert (0.0 - 0.0) * c.refill == 0.0;
    EvictionIsExactIff(bs, gone, 0.0, c);
  }
}
