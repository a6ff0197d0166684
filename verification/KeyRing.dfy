/**
 The signing key ring (fusion_identity/jwks.py, KeyRing): the current RSA key, the retired keys, an
 index from key id to key for verification, and the file that carries current and retired keys over
 a restart. Key ids are fresh; key generation and the PEM texts are opaque.
 */
module KeyRing {
  import opened Util

  const GRACE_SECONDS := 86400.0

  datatype RsaKey = RsaKey(kid: string, privatePem: string, publicPem: string, createdAt: real)

  // ----- The file -----

  /** A key as a JSON object; any member may be missing. */
  datatype KeyDict = KeyDict(kid: Option<string>, privatePem: Option<string>, publicPem: Option<string>,
                             createdAt: Option<real>)

  function ToDict(k: RsaKey): KeyDict {
    KeyDict(Some(k.kid), Some(k.privatePem), Some(k.publicPem), Some(k.createdAt))
  }

  function FromDict(d: KeyDict): Option<RsaKey> {
    if d.kid.None? || d.kid.value == "" || d.publicPem.None? || d.publicPem.value == "" then None
    else Some(RsaKey(d.kid.value, if d.privatePem.Some? then d.privatePem.value else "", d.publicPem.value,
                     if d.createdAt.Some? then d.createdAt.value else 0.0))
  }

  predicate Usable(k: RsaKey) {
    k.kid != "" && k.publicPem != ""
  }

  /** The file brings a key back exactly if it has an id and a public half. */
  lemma DictRoundTripIff(k: RsaKey)
    ensures FromDict(ToDict(k)) == Some(k) <==> Usable(k)
  {
  }

  /** A key is read if it has an id and a public half; a missing private half is empty, a missing creation
      time is 0. */
  lemma DictIs(d: KeyDict, k: RsaKey)
    ensures FromDict(d) == Some(k) <==>
              && d.kid == Some(k.kid) && k.kid != "" && d.publicPem == Some(k.publicPem) && k.publicPem != ""
              && (d.privatePem == Some(k.privatePem) || (d.privatePem == None && k.privatePem == ""))
              && (d.createdAt == Some(k.createdAt) || (d.createdAt == None && k.createdAt == 0.0))
  {
  }

  datatype File = File(algorithm: string, current: Option<KeyDict>, retired: seq<KeyDict>)

  function ToDicts(ks: seq<RsaKey>): seq<KeyDict> {
    seq(|ks|, i requires 0 <= i < |ks| => ToDict(ks[i]))
  }

  /** The readable ones, in order. */
  function FromDicts(ds: seq<KeyDict>): seq<RsaKey> {
    if ds == [] then []
    else FromDicts(Init(ds)) + if FromDict(Last(ds)).Some? then [FromDict(Last(ds)).value] else []
  }

  function Saved(r: Ring): File {
    File("RS256", Some(ToDict(r.current)), ToDicts(r.retired))
  }

  // ----- The ring -----

  /** current, retired, and the index over them and the external keys from configuration. */
  datatype Ring = Ring(current: RsaKey, retired: seq<RsaKey>, index: map<string, RsaKey>)

  function Indexed(index: map<string, RsaKey>, ks: seq<RsaKey>): map<string, RsaKey> {
    if ks == [] then index else Indexed(index, Init(ks))[Last(ks).kid := Last(ks)]
  }

  /** The index of a ring: every key under its id. */
  function IndexOf(current: RsaKey, retired: seq<RsaKey>, external: seq<RsaKey>): map<string, RsaKey> {
    Indexed(Indexed(map[current.kid := current], retired), external)
  }

  /** _load_persisted, then the external keys. */
  function Loaded(f: File, external: seq<RsaKey>): Option<Ring> {
    if f.algorithm != "RS256" || f.current.None? || FromDict(f.current.value).None? then None
    else
      var current := FromDict(f.current.value).value;
      var retired := FromDicts(f.retired);
      Some(Ring(current, retired, IndexOf(current, retired, external)))
  }

  /** rs256: the file if it can be read, else the configured or generated key. */
  function Started(f: Option<File>, configured: RsaKey, external: seq<RsaKey>): Ring {
    if f.Some? && Loaded(f.value, external).Some? then Loaded(f.value, external).value
    else Ring(configured, [], IndexOf(configured, [], external))
  }

  function Rotated(r: Ring, key: RsaKey): Ring {
    Ring(key, r.retired + [r.current], r.index[key.kid := key])
  }

  predicate TooOld(k: RsaKey, now: real) {
    now - k.createdAt > GRACE_SECONDS
  }

  function Kept(ks: seq<RsaKey>, now: real): seq<RsaKey> {
    if ks == [] then [] else Kept(Init(ks), now) + if TooOld(Last(ks), now) then [] else [Last(ks)]
  }

  function KidsTooOld(ks: seq<RsaKey>, now: real): set<string> {
    set k | k in ks && TooOld(k, now) :: k.kid
  }

  function Pruned(r: Ring, now: real): Ring {
    r.(retired := Kept(r.retired, now), index := r.index - KidsTooOld(r.retired, now))
  }

  class KeyRing {
    var ring: Ring
    var file: Option<File>
    const durable: bool

    constructor (durable: bool, file: Option<File>, configured: RsaKey, external: seq<RsaKey>)
      ensures ring == Started(file, configured, external) && this.file == file && this.durable == durable
    {
      this.durable, this.file, ring := durable, file, Started(file, configured, external);
    }

    /** _persist: a temporary file replaces the old one, or the old one stays. */
    method Persist(writeOk: bool)
      modifies `file
      ensures file == if durable && writeOk then Some(Saved(ring)) else old(file)
    {
      if durable && writeOk {
        file := Some(File("RS256", Some(ToDict(ring.current)), ToDicts(ring.retired)));
      }
    }

    method Rotate(key: RsaKey, writeOk: bool)
      modifies this
      ensures ring == Rotated(old(ring), key)
      ensures file == if durable && writeOk then Some(Saved(ring)) else old(file)
    {
      ring := ring.(retired := ring.retired + [ring.current]);
      ring := ring.(current := key);
      ring := ring.(index := ring.index[key.kid := key]);
      Persist(writeOk);
    }

    method Prune(now: real, writeOk: bool) returns (dropped: nat)
      modifies this
      ensures ring == Pruned(old(ring), now) && dropped == |old(ring).retired| - |ring.retired|
      ensures file == if durable && writeOk && dropped > 0 then Some(Saved(ring)) else old(file)
    {
      var keep := [];
      dropped := 0;
      var r := ring.retired;
      ghost var before := ring.index;
      for i := 0 to |r|
        invariant keep == Kept(r[..i], now) && dropped + |keep| == i
        invariant ring == old(ring).(index := before - KidsTooOld(r[..i], now)) && file == old(file)
      {
        assert Init(r[..i + 1]) == r[..i] && Last(r[..i + 1]) == r[i];
        if now - r[i].createdAt > GRACE_SECONDS {
          assert KidsTooOld(r[..i + 1], now) == KidsTooOld(r[..i], now) + {r[i].kid} by { OneMore(r, i, now); }
          ring := ring.(index := ring.index - {r[i].kid});
          assert ring.index == before - KidsTooOld(r[..i + 1], now);
          dropped := dropped + 1;
        } else {
          assert KidsTooOld(r[..i + 1], now) == KidsTooOld(r[..i], now) by { OneMore(r, i, now); }
          keep := keep + [r[i]];
        }
      }
      assert r[..|r|] == r;
      ring := ring.(retired := keep);
      if dropped > 0 {
        Persist(writeOk);
      }
    }

    /** verify_key_for under RS256. Every reachable ring is whole. */
    method VerifyKeyFor(kid: Option<string>, ghost external: seq<RsaKey>) returns (pem: Option<string>)
      ensures Whole(ring, external) ==> Vouches(ring, external, kid, pem)
    {
      if kid.Some? && Whole(ring, external) {
        IndexAt(ring.current, ring.retired, external, kid.value);
        if Has(external, kid.value) { FromList(external, kid.value); }
      }
      if kid.Some? && kid.value != "" && kid.value in ring.index {
        return Some(ring.index[kid.value].publicPem);
      }
      return None;
    }
  }

  /** The public half of a key for exactly the ids of the current, the retired and the external keys,
      and then of the key with that id; no id and no unknown id falls back to another key. */
  predicate Vouches(r: Ring, external: seq<RsaKey>, kid: Option<string>, pem: Option<string>) {
    && (pem.Some? <==>
          && kid.Some? && kid.value != ""
          && (kid.value == r.current.kid || Has(r.retired, kid.value) || Has(external, kid.value)))
    && (pem.Some? ==>
          || (kid.value == r.current.kid && pem.value == r.current.publicPem)
          || (exists i :: 0 <= i < |r.retired| && r.retired[i].kid == kid.value && pem.value == r.retired[i].publicPem)
          || (exists i :: 0 <= i < |external| && external[i].kid == kid.value && pem.value == external[i].publicPem))
  }

  lemma OneMore(r: seq<RsaKey>, i: nat, now: real)
    requires i < |r|
    ensures KidsTooOld(r[..i + 1], now) == KidsTooOld(r[..i], now) + if TooOld(r[i], now) then {r[i].kid} else {}
  {
    assert forall k :: k in r[..i + 1] <==> k in r[..i] || k == r[i];
    if TooOld(r[i], now) { assert r[i] in r[..i + 1]; }
  }

  // ----- Consistency -----

  predicate Distinct(ks: seq<RsaKey>) {
    forall i, j :: 0 <= i < j < |ks| ==> ks[i].kid != ks[j].kid
  }

  predicate Has(ks: seq<RsaKey>, kid: string) {
    exists i :: 0 <= i < |ks| && ks[i].kid == kid
  }

  /** The ids of current, retired and external keys do not collide. */
  predicate Separate(current: RsaKey, retired: seq<RsaKey>, external: seq<RsaKey>) {
    && Distinct(retired) && !Has(retired, current.kid) && !Has(external, current.kid)
    && (forall i :: 0 <= i < |retired| ==> !Has(external, retired[i].kid))
  }

  lemma {:induction false} IndexedAt(index: map<string, RsaKey>, ks: seq<RsaKey>, kid: string)
    ensures kid in Indexed(index, ks) <==> kid in index || Has(ks, kid)
    ensures !Has(ks, kid) && kid in index ==> Indexed(index, ks)[kid] == index[kid]
    ensures Has(ks, kid) ==> kid in Indexed(map[], ks) && Indexed(index, ks)[kid] == Indexed(map[], ks)[kid]
    ensures forall i :: 0 <= i < |ks| && ks[i].kid == kid && Distinct(ks) ==>
            Has(ks, kid) && Indexed(index, ks)[kid] == ks[i]
  {
    if ks != [] {
      IndexedAt(index, Init(ks), kid);
      assert Has(ks, kid) <==> Has(Init(ks), kid) || Last(ks).kid == kid;
      forall i | 0 <= i < |ks| && ks[i].kid == kid && Distinct(ks)
        ensures Has(ks, kid) && Indexed(index, ks)[kid] == ks[i] {
        if i < |ks| - 1 { assert Init(ks)[i] == ks[i]; }
      }
    }
  }

  /** An indexed list holds one of its own keys under an id. */
  lemma {:induction false} FromList(ks: seq<RsaKey>, kid: string)
    requires Has(ks, kid)
    ensures kid in Indexed(map[], ks)
    ensures exists i :: 0 <= i < |ks| && ks[i].kid == kid && Indexed(map[], ks)[kid] == ks[i]
  {
    if Last(ks).kid != kid {
      var i :| 0 <= i < |ks| && ks[i].kid == kid;
      assert Init(ks)[i] == ks[i];
      FromList(Init(ks), kid);
      var j :| 0 <= j < |Init(ks)| && Init(ks)[j].kid == kid && Indexed(map[], Init(ks))[kid] == Init(ks)[j];
      assert ks[j] == Init(ks)[j];
    } else {
      assert ks[|ks| - 1] == Last(ks);
    }
  }

  /** What the index holds under one id. */
  lemma IndexAt(current: RsaKey, retired: seq<RsaKey>, external: seq<RsaKey>, kid: string)
    requires Separate(current, retired, external)
    ensures
      var index := IndexOf(current, retired, external);
      && (kid in index <==> kid == current.kid || Has(retired, kid) || Has(external, kid))
      && (kid == current.kid ==> index[kid] == current)
      && (forall i :: 0 <= i < |retired| && retired[i].kid == kid ==> kid in index && index[kid] == retired[i])
      && (Has(external, kid) ==> kid in Indexed(map[], external) && index[kid] == Indexed(map[], external)[kid])
  {
    IndexedAt(map[current.kid := current], retired, kid);
    IndexedAt(Indexed(map[current.kid := current], retired), external, kid);
  }

  predicate Whole(r: Ring, external: seq<RsaKey>) {
    && Separate(r.current, r.retired, external)
    && r.index == IndexOf(r.current, r.retired, external)
    && Usable(r.current) && forall i :: 0 <= i < |r.retired| ==> Usable(r.retired[i])
  }

  lemma RotateKeeps(r: Ring, key: RsaKey, external: seq<RsaKey>)
    requires Whole(r, external) && Usable(key) && key.kid !in r.index
    ensures Whole(Rotated(r, key), external)
  {
    var retired := r.retired + [r.current];
    IndexAt(r.current, r.retired, external, key.kid);
    assert Has(retired, key.kid) ==> Has(r.retired, key.kid) || r.current.kid == key.kid;
    forall i, j | 0 <= i < j < |retired| ensures retired[i].kid != retired[j].kid {
      if j == |r.retired| { assert retired[i] == r.retired[i]; }
    }
    assert Separate(key, retired, external);
    forall kid ensures kid in IndexOf(key, retired, external) <==> kid in r.index[key.kid := key]
    ensures kid in IndexOf(key, retired, external) ==>
            IndexOf(key, retired, external)[kid] == r.index[key.kid := key][kid] {
      RotatedIndexAt(r, key, external, kid);
    }
    assert IndexOf(key, retired, external) == r.index[key.kid := key];
  }

  lemma RotatedIndexAt(r: Ring, key: RsaKey, external: seq<RsaKey>, kid: string)
    requires Whole(r, external) && Separate(key, r.retired + [r.current], external)
    ensures
      var index := IndexOf(key, r.retired + [r.current], external);
      && (kid in index <==> kid in r.index || kid == key.kid)
      && (kid in index ==> index[kid] == r.index[key.kid := key][kid])
  {
    var retired := r.retired + [r.current];
    IndexAt(r.current, r.retired, external, kid);
    IndexAt(key, retired, external, kid);
    if Has(r.retired, kid) {
      var i :| 0 <= i < |r.retired| && r.retired[i].kid == kid;
      assert retired[i].kid == kid;
    }
    if kid == r.current.kid { assert retired[|r.retired|].kid == kid; }
  }

  /** At most a day old. */
  predicate Young(k: RsaKey, now: real) {
    now - k.createdAt <= 86400.0
  }

  /** A prune keeps exactly the retired keys created at most a day ago. */
  lemma {:induction false} KeptIff(ks: seq<RsaKey>, now: real, k: RsaKey)
    ensures k in Kept(ks, now) <==> k in ks && now - k.createdAt <= 86400.0
  {
    if ks != [] {
      KeptIff(Init(ks), now, k);
      assert ks == Init(ks) + [Last(ks)];
    }
  }

  lemma {:induction false} KeptDistinct(ks: seq<RsaKey>, now: real)
    requires Distinct(ks)
    ensures Distinct(Kept(ks, now))
  {
    if ks != [] {
      KeptDistinct(Init(ks), now);
      forall i | 0 <= i < |Kept(Init(ks), now)| ensures Kept(Init(ks), now)[i].kid != Last(ks).kid {
        KeptIff(Init(ks), now, Kept(Init(ks), now)[i]);
        var j :| 0 <= j < |Init(ks)| && Init(ks)[j] == Kept(Init(ks), now)[i];
        assert ks[j] == Init(ks)[j];
      }
    }
  }

  lemma KeptFrom(ks: seq<RsaKey>, now: real, i: nat) returns (j: nat)
    requires i < |Kept(ks, now)|
    ensures j < |ks| && ks[j] == Kept(ks, now)[i] && !TooOld(ks[j], now)
  {
    KeptIff(ks, now, Kept(ks, now)[i]);
    j :| 0 <= j < |ks| && ks[j] == Kept(ks, now)[i];
  }

  lemma KeptStays(ks: seq<RsaKey>, now: real, j: nat) returns (i: nat)
    requires j < |ks| && !TooOld(ks[j], now)
    ensures i < |Kept(ks, now)| && Kept(ks, now)[i] == ks[j]
  {
    KeptIff(ks, now, ks[j]);
    i :| 0 <= i < |Kept(ks, now)| && Kept(ks, now)[i] == ks[j];
  }

  lemma KeptHas(ks: seq<RsaKey>, now: real, kid: string)
    requires Distinct(ks)
    ensures Has(Kept(ks, now), kid) <==> Has(ks, kid) && kid !in KidsTooOld(ks, now)
    ensures kid in KidsTooOld(ks, now) ==> Has(ks, kid)
  {
    if Has(ks, kid) {
      var j :| 0 <= j < |ks| && ks[j].kid == kid;
      if TooOld(ks[j], now) {
        assert ks[j] in ks;
      } else {
        var i := KeptStays(ks, now, j);
      }
    }
    if Has(Kept(ks, now), kid) {
      var i :| 0 <= i < |Kept(ks, now)| && Kept(ks, now)[i].kid == kid;
      var j := KeptFrom(ks, now, i);
    }
  }

  lemma KeptAreThere(ks: seq<RsaKey>, now: real)
    ensures forall i :: 0 <= i < |Kept(ks, now)| ==> Kept(ks, now)[i] in ks
  {
    forall i | 0 <= i < |Kept(ks, now)| ensures Kept(ks, now)[i] in ks {
      var j := KeptFrom(ks, now, i);
    }
  }

  lemma PruneKeeps(r: Ring, now: real, external: seq<RsaKey>)
    requires Whole(r, external)
    ensures Whole(Pruned(r, now), external)
  {
    var kept := Kept(r.retired, now);
    var gone := KidsTooOld(r.retired, now);
    KeptDistinct(r.retired, now);
    KeptHas(r.retired, now, r.current.kid);
    KeptAreThere(r.retired, now);
    assert Separate(r.current, kept, external);
    forall kid ensures kid in IndexOf(r.current, kept, external) <==> kid in r.index - gone
    ensures kid in IndexOf(r.current, kept, external) ==>
            IndexOf(r.current, kept, external)[kid] == (r.index - gone)[kid] {
      PrunedIndexAt(r, now, external, kid);
    }
    assert IndexOf(r.current, kept, external) == r.index - gone;
  }

  lemma PrunedIndexAt(r: Ring, now: real, external: seq<RsaKey>, kid: string)
    requires Whole(r, external) && Separate(r.current, Kept(r.retired, now), external)
    ensures
      var index := IndexOf(r.current, Kept(r.retired, now), external);
      && (kid in index <==> kid in r.index && kid !in KidsTooOld(r.retired, now))
      && (kid in index ==> index[kid] == r.index[kid])
  {
    var kept := Kept(r.retired, now);
    IndexAt(r.current, r.retired, external, kid);
    IndexAt(r.current, kept, external, kid);
    KeptHas(r.retired, now, kid);
    KeptAreThere(r.retired, now);
    if Has(kept, kid) {
      var i :| 0 <= i < |kept| && kept[i].kid == kid;
      assert kept[i] in r.retired;
    }
  }

  // ----- Restart -----

  lemma {:induction false} DictsRoundTrip(ks: seq<RsaKey>)
    requires forall i :: 0 <= i < |ks| ==> Usable(ks[i])
    ensures FromDicts(ToDicts(ks)) == ks
  {
    if ks != [] {
      DictsRoundTrip(Init(ks));
      assert Init(ToDicts(ks)) == ToDicts(Init(ks));
    }
  }

  lemma {:induction false} DictsAre(ds: seq<KeyDict>, k: RsaKey)
    ensures k in FromDicts(ds) <==> exists i :: 0 <= i < |ds| && FromDict(ds[i]) == Some(k)
  {
    if ds != [] {
      DictsAre(Init(ds), k);
      if k in FromDicts(Init(ds)) {
        var i :| 0 <= i < |Init(ds)| && FromDict(Init(ds)[i]) == Some(k);
        assert ds[i] == Init(ds)[i];
      }
      if i :| 0 <= i < |ds| - 1 && FromDict(ds[i]) == Some(k) {
        assert Init(ds)[i] == ds[i];
      }
    }
  }

  /** A file is used exactly if it is for RS256 and its current key can be read; then the ring has that key,
      and as retired ones all that can be read. */
  lemma LoadedIff(f: File, external: seq<RsaKey>, k: RsaKey)
    ensures Loaded(f, external).Some? <==> f.algorithm == "RS256" && f.current.Some? && FromDict(f.current.value).Some?
    ensures Loaded(f, external).Some? ==>
              && Some(Loaded(f, external).value.current) == FromDict(f.current.value)
              && (k in Loaded(f, external).value.retired <==>
                    exists i :: 0 <= i < |f.retired| && FromDict(f.retired[i]) == Some(k))
  {
    DictsAre(f.retired, k);
  }

  /** What was saved comes back whole: same keys, same index. */
  lemma LoadRestores(r: Ring, external: seq<RsaKey>)
    requires Whole(r, external)
    ensures Loaded(Saved(r), external) == Some(r)
  {
    DictsRoundTrip(r.retired);
  }

  // ----- Runs -----

  datatype Event = Rotate(key: RsaKey, writeOk: bool) | Prune(writeOk: bool) | Restart

  datatype Timed = Timed(event: Event, at: real)

  /** The ring, the ring last saved to the file, and every key that was ever current. */
  datatype State = State(ring: Ring, saved: Option<Ring>, born: set<RsaKey>)

  function FileOf(saved: Option<Ring>): Option<File> {
    if saved.Some? then Some(Saved(saved.value)) else None
  }

  /** The configured key; its creation time is the time of the start. */
  function Begin(home: RsaKey, external: seq<RsaKey>): State {
    State(Started(None, home, external), None, {home})
  }

  function Step(s: State, e: Timed, home: RsaKey, external: seq<RsaKey>): State {
    match e.event
    case Rotate(key, ok) =>
      var ring := Rotated(s.ring, key);
      State(ring, if ok then Some(ring) else s.saved, s.born + {key})
    case Prune(ok) =>
      var ring := Pruned(s.ring, e.at);
      State(ring, if ok && |ring.retired| < |s.ring.retired| then Some(ring) else s.saved, s.born)
    case Restart =>
      var ring := Started(FileOf(s.saved), home.(createdAt := e.at), external);
      State(ring, s.saved, s.born + {ring.current})
  }

  /** A prune that drops nothing leaves the file alone, even if it is behind the ring. */
  lemma IdlePruneSavesNothing(s: State, at: real, ok: bool, home: RsaKey, external: seq<RsaKey>)
    requires forall i :: 0 <= i < |s.ring.retired| ==> Young(s.ring.retired[i], at)
    ensures Step(s, Timed(Prune(ok), at), home, external).saved == s.saved
  {
    AllKept(s.ring.retired, at);
  }

  lemma {:induction false} AllKept(ks: seq<RsaKey>, now: real)
    requires forall i :: 0 <= i < |ks| ==> Young(ks[i], now)
    ensures |Kept(ks, now)| == |ks|
  {
    if ks != [] {
      assert Young(ks[|ks| - 1], now);
      YoungKept(ks, now);
      AllKept(Init(ks), now);
    }
  }

  lemma YoungKept(ks: seq<RsaKey>, now: real)
    requires ks != [] && Young(ks[|ks| - 1], now)
    ensures |Kept(ks, now)| == |Kept(Init(ks), now)| + 1
  {
  }

  /** A rotation makes a usable key with an id nothing ever had. */
  predicate Allowed(s: State, e: Timed, external: seq<RsaKey>) {
    e.event.Rotate? ==>
      var key := e.event.key;
      Usable(key) && key.createdAt == e.at && !Has(external, key.kid) && forall k :: k in s.born ==> k.kid != key.kid
  }

  predicate Legal(s: State, run: seq<Timed>, now: real, home: RsaKey, external: seq<RsaKey>)
    decreases |run|
  {
    if run == [] then true
    else
      now <= run[0].at && Allowed(s, run[0], external)
      && Legal(Step(s, run[0], home, external), run[1..], run[0].at, home, external)
  }

  function After(s: State, run: seq<Timed>, home: RsaKey, external: seq<RsaKey>): State
    decreases |run|
  {
    if run == [] then s else After(Step(s, run[0], home, external), run[1..], home, external)
  }

  function Clock(run: seq<Timed>, now: real): real {
    if run == [] then now else run[|run| - 1].at
  }

  /** All keys of a ring were current once. */
  predicate FromBorn(r: Ring, born: set<RsaKey>) {
    r.current in born && forall i :: 0 <= i < |r.retired| ==> r.retired[i] in born
  }

  predicate Inv(s: State, home: RsaKey, external: seq<RsaKey>) {
    && Usable(home) && !Has(external, home.kid)
    && Whole(s.ring, external) && FromBorn(s.ring, s.born)
    && (s.saved.Some? ==> Whole(s.saved.value, external) && FromBorn(s.saved.value, s.born))
  }

  lemma FreshKid(r: Ring, born: set<RsaKey>, key: RsaKey, external: seq<RsaKey>)
    requires Whole(r, external) && FromBorn(r, born) && !Has(external, key.kid)
    requires forall k :: k in born ==> k.kid != key.kid
    ensures key.kid !in r.index
  {
    IndexAt(r.current, r.retired, external, key.kid);
  }

  lemma StepKeeps(s: State, e: Timed, home: RsaKey, external: seq<RsaKey>)
    requires Inv(s, home, external) && Allowed(s, e, external)
    ensures Inv(Step(s, e, home, external), home, external)
  {
    match e.event
    case Rotate(key, _) =>
      FreshKid(s.ring, s.born, key, external);
      RotateKeeps(s.ring, key, external);
    case Prune(_) =>
      PruneKeeps(s.ring, e.at, external);
      forall k ensures k in Kept(s.ring.retired, e.at) <==> k in s.ring.retired && !TooOld(k, e.at) {
        KeptIff(s.ring.retired, e.at, k);
      }
    case Restart =>
      if s.saved.Some? { LoadRestores(s.saved.value, external); }
  }

  lemma {:induction false} RunKeeps(s: State, run: seq<Timed>, now: real, home: RsaKey, external: seq<RsaKey>)
    requires Inv(s, home, external) && Legal(s, run, now, home, external)
    ensures Inv(After(s, run, home, external), home, external)
    decreases |run|
  {
    if run != [] {
      StepKeeps(s, run[0], home, external);
      RunKeeps(Step(s, run[0], home, external), run[1..], run[0].at, home, external);
    }
  }

  /** In every run, failed writes included, the index is exactly current, retired and external keys,
      each under its own id. */
  lemma RingIsConsistent(run: seq<Timed>, now: real, home: RsaKey, external: seq<RsaKey>, kid: string)
    requires Usable(home) && !Has(external, home.kid) && Legal(Begin(home, external), run, now, home, external)
    ensures
      var r := After(Begin(home, external), run, home, external).ring;
      && (kid in r.index <==> kid == r.current.kid || Has(r.retired, kid) || Has(external, kid))
      && r.current.kid in r.index && r.index[r.current.kid] == r.current
      && (forall i :: 0 <= i < |r.retired| ==> r.retired[i].kid in r.index && r.index[r.retired[i].kid] == r.retired[i])
  {
    RunKeeps(Begin(home, external), run, now, home, external);
    var r := After(Begin(home, external), run, home, external).ring;
    IndexAt(r.current, r.retired, external, kid);
    IndexAt(r.current, r.retired, external, r.current.kid);
    forall i | 0 <= i < |r.retired| ensures r.retired[i].kid in r.index && r.index[r.retired[i].kid] == r.retired[i] {
      IndexAt(r.current, r.retired, external, r.retired[i].kid);
    }
  }

  // ----- How long a key verifies -----

  /** The ring verifies what this key signed. */
  predicate Verifies(r: Ring, k: RsaKey) {
    k.kid in r.index && r.index[k.kid].publicPem == k.publicPem
  }

  /** The same key, possibly started again later. */
  predicate Same(a: RsaKey, b: RsaKey) {
    a.kid == b.kid && a.publicPem == b.publicPem && a.createdAt <= b.createdAt
  }

  predicate Holds(r: Ring, k: RsaKey) {
    Same(k, r.current) || exists i :: 0 <= i < |r.retired| && Same(k, r.retired[i])
  }

  lemma HeldVerifies(r: Ring, k: RsaKey, external: seq<RsaKey>)
    requires Whole(r, external) && Holds(r, k)
    ensures Verifies(r, k)
  {
    IndexAt(r.current, r.retired, external, k.kid);
  }

  predicate In(r: Ring, x: RsaKey) {
    x == r.current || x in r.retired
  }

  /** No older copy of a key that was started again: every key of the ring is as late as any that was
      ever current under its id. */
  ghost predicate Latest(r: Ring, born: set<RsaKey>) {
    forall x, k :: In(r, x) && k in born && k.kid == x.kid ==> Same(k, x)
  }

  /** What every run keeps, failed writes and missing files included. */
  ghost predicate Births(s: State, home: RsaKey, external: seq<RsaKey>, now: real) {
    && home in s.born
    && (forall k :: k in s.born ==> k.createdAt <= now && !Has(external, k.kid))
    && (forall k :: k in s.born && k.kid == home.kid ==> k.publicPem == home.publicPem)
    && Latest(s.ring, s.born) && (s.saved.Some? ==> Latest(s.saved.value, s.born))
  }

  lemma InBorn(r: Ring, born: set<RsaKey>, x: RsaKey)
    requires FromBorn(r, born) && In(r, x)
    ensures x in born
  {
    if x != r.current {
      var i :| 0 <= i < |r.retired| && r.retired[i] == x;
    }
  }

  lemma RotateLatest(r: Ring, born: set<RsaKey>, key: RsaKey)
    requires Latest(r, born) && FromBorn(r, born) && forall k :: k in born ==> k.kid != key.kid
    ensures Latest(r, born + {key}) && Latest(Rotated(r, key), born + {key})
  {
    forall x, k | (In(r, x) || In(Rotated(r, key), x)) && k in born + {key} && k.kid == x.kid ensures Same(k, x) {
      if x != key {
        assert In(r, x);
        InBorn(r, born, x);
      }
    }
  }

  lemma PruneLatest(r: Ring, born: set<RsaKey>, now: real)
    requires Latest(r, born)
    ensures Latest(Pruned(r, now), born)
  {
    forall x | In(Pruned(r, now), x) ensures In(r, x) { KeptIff(r.retired, now, x); }
  }

  lemma BirthsKeep(s: State, e: Timed, now: real, home: RsaKey, external: seq<RsaKey>)
    requires Inv(s, home, external) && Births(s, home, external, now) && Allowed(s, e, external) && now <= e.at
    ensures Births(Step(s, e, home, external), home, external, e.at)
  {
    match e.event
    case Rotate(key, _) =>
      RotateLatest(s.ring, s.born, key);
      if s.saved.Some? { RotateLatest(s.saved.value, s.born, key); }
    case Prune(_) => PruneLatest(s.ring, s.born, e.at);
    case Restart =>
      if s.saved.Some? { LoadRestores(s.saved.value, external); }
  }

  // ----- Restarts -----

  /** What a restart goes by, the saved ring or without one the configured key, has this key. */
  ghost predicate Remembered(s: State, home: RsaKey, k: RsaKey) {
    if s.saved.Some? then exists x :: In(s.saved.value, x) && x.kid == k.kid && x.publicPem == k.publicPem
    else home.kid == k.kid && home.publicPem == k.publicPem
  }

  /** A key that was ever current verifies after a restart if and only if what the restart goes by has it. */
  lemma RestartKeepsIff(s: State, at: real, now: real, home: RsaKey, external: seq<RsaKey>, k: RsaKey)
    requires Inv(s, home, external) && Births(s, home, external, now) && k in s.born
    ensures Verifies(Step(s, Timed(Restart, at), home, external).ring, k) <==> Remembered(s, home, k)
  {
    var r := Step(s, Timed(Restart, at), home, external).ring;
    if s.saved.Some? {
      LoadRestores(s.saved.value, external);
      assert r == s.saved.value;
    }
    IndexAt(r.current, r.retired, external, k.kid);
    if Remembered(s, home, k) && s.saved.Some? {
      var x :| In(r, x) && x.kid == k.kid && x.publicPem == k.publicPem;
      if x != r.current {
        var i :| 0 <= i < |r.retired| && r.retired[i] == x;
      }
    }
    if Verifies(r, k) && k.kid != r.current.kid {
      var i :| 0 <= i < |r.retired| && r.retired[i].kid == k.kid;
      assert In(r, r.retired[i]);
    } else if Verifies(r, k) {
      assert In(r, r.current);
    }
  }

  /** A restart forgets a key that is at most a day old. */
  ghost predicate Forgets(s: State, e: Timed, home: RsaKey) {
    e.event.Restart? && exists k :: k in s.born && Young(k, e.at) && !Remembered(s, home, k)
  }

  ghost predicate NeverForgets(s: State, run: seq<Timed>, home: RsaKey, external: seq<RsaKey>)
    decreases |run|
  {
    run != [] ==> !Forgets(s, run[0], home) && NeverForgets(Step(s, run[0], home, external), run[1..], home, external)
  }

  /** Every key that was ever current and is at most a day old verifies. */
  predicate Graced(s: State, now: real) {
    forall k :: k in s.born && Young(k, now) ==> Verifies(s.ring, k)
  }

  predicate AlwaysGraced(s: State, run: seq<Timed>, now: real, home: RsaKey, external: seq<RsaKey>)
    decreases |run|
  {
    Graced(s, now)
    && (run != [] ==> AlwaysGraced(Step(s, run[0], home, external), run[1..], run[0].at, home, external))
  }

  predicate Lasting(s: State, now: real) {
    forall k :: k in s.born ==> TooOld(k, now) || Holds(s.ring, k)
  }

  lemma PruneHolds(r: Ring, k: RsaKey, now: real)
    requires Holds(r, k)
    ensures TooOld(k, now) || Holds(Pruned(r, now), k)
  {
    if !TooOld(k, now) && !Same(k, r.current) {
      var i :| 0 <= i < |r.retired| && Same(k, r.retired[i]);
      KeptIff(r.retired, now, r.retired[i]);
      var j :| 0 <= j < |Kept(r.retired, now)| && Kept(r.retired, now)[j] == r.retired[i];
    }
  }

  lemma RotateHolds(r: Ring, k: RsaKey, key: RsaKey)
    requires Holds(r, k)
    ensures Holds(Rotated(r, key), k)
  {
    var retired := r.retired + [r.current];
    if Same(k, r.current) {
      assert retired[|r.retired|] == r.current;
    } else {
      var i :| 0 <= i < |r.retired| && Same(k, r.retired[i]);
      assert retired[i] == r.retired[i];
    }
  }

  lemma RestartLasts(s: State, e: Timed, now: real, home: RsaKey, external: seq<RsaKey>)
    requires Inv(s, home, external) && Births(s, home, external, now) && now <= e.at
    requires e.event.Restart? && !Forgets(s, e, home)
    ensures Lasting(Step(s, e, home, external), e.at)
  {
    var s' := Step(s, e, home, external);
    if s.saved.Some? { LoadRestores(s.saved.value, external); }
    forall k | k in s.born && !TooOld(k, e.at) ensures Holds(s'.ring, k) {
      assert Remembered(s, home, k);
      if s.saved.Some? {
        var x :| In(s.saved.value, x) && x.kid == k.kid && x.publicPem == k.publicPem;
        assert Same(k, x);
        if x != s'.ring.current {
          var i :| 0 <= i < |s'.ring.retired| && s'.ring.retired[i] == x;
        }
      }
    }
  }

  lemma StepLasts(s: State, e: Timed, now: real, home: RsaKey, external: seq<RsaKey>)
    requires Inv(s, home, external) && Births(s, home, external, now) && Lasting(s, now)
    requires Allowed(s, e, external) && now <= e.at && !Forgets(s, e, home)
    ensures Lasting(Step(s, e, home, external), e.at)
  {
    var s' := Step(s, e, home, external);
    if e.event.Restart? {
      RestartLasts(s, e, now, home, external);
    } else {
      forall k | k in s'.born && !TooOld(k, e.at) ensures Holds(s'.ring, k) {
        if k in s.born {
          if e.event.Rotate? { RotateHolds(s.ring, k, e.event.key); } else { PruneHolds(s.ring, k, e.at); }
        }
      }
    }
  }

  lemma LastingIsGraced(s: State, now: real, external: seq<RsaKey>)
    requires Whole(s.ring, external) && Lasting(s, now)
    ensures Graced(s, now)
  {
    forall k | k in s.born && !TooOld(k, now) ensures Verifies(s.ring, k) { HeldVerifies(s.ring, k, external); }
  }

  lemma {:induction false} GraceRun(s: State, run: seq<Timed>, now: real, home: RsaKey, external: seq<RsaKey>)
    requires Inv(s, home, external) && Births(s, home, external, now) && Lasting(s, now)
    requires Legal(s, run, now, home, external)
    ensures AlwaysGraced(s, run, now, home, external) <==> NeverForgets(s, run, home, external)
    decreases |run|
  {
    LastingIsGraced(s, now, external);
    if run != [] {
      var e := run[0];
      if Forgets(s, e, home) {
        var k :| k in s.born && Young(k, e.at) && !Remembered(s, home, k);
        RestartKeepsIff(s, e.at, now, home, external, k);
        assert !Graced(Step(s, e, home, external), e.at);
      } else {
        StepKeeps(s, e, home, external);
        BirthsKeep(s, e, now, home, external);
        StepLasts(s, e, now, home, external);
        GraceRun(Step(s, e, home, external), run[1..], e.at, home, external);
      }
    }
  }

  /**
   In every run of rotations, prunes and restarts, whatever writes fail and with or without a file: at
   every instant every key that was ever current verifies until a day after its creation, if and only
   if at each restart the saved ring, or without one the configured key, has all such keys.
   */
  lemma KeysVerifyForADayIff(run: seq<Timed>, home: RsaKey, external: seq<RsaKey>)
    requires Usable(home) && !Has(external, home.kid)
    requires Legal(Begin(home, external), run, home.createdAt, home, external)
    ensures AlwaysGraced(Begin(home, external), run, home.createdAt, home, external)
            <==> NeverForgets(Begin(home, external), run, home, external)
  {
    GraceRun(Begin(home, external), run, home.createdAt, home, external);
  }

  // ----- Runs whose writes succeed -----

  predicate WritesOk(run: seq<Timed>) {
    forall i :: 0 <= i < |run| ==> (run[i].event.Rotate? || run[i].event.Prune?) ==> run[i].event.writeOk
  }

  /** The file is up to date, or there was never anything but the configured key. */
  predicate UpToDate(s: State, home: RsaKey) {
    if s.saved.Some? then s.saved.value == s.ring
    else s.ring.retired == [] && forall k :: k in s.born ==> home.kid == k.kid && home.publicPem == k.publicPem
  }

  lemma {:induction false} KeptAll(ks: seq<RsaKey>, now: real)
    ensures |Kept(ks, now)| <= |ks|
    ensures |Kept(ks, now)| == |ks| ==> Kept(ks, now) == ks && KidsTooOld(ks, now) == {}
  {
    if ks != [] {
      KeptAll(Init(ks), now);
      assert ks == Init(ks) + [Last(ks)];
    }
  }

  lemma UpToDateStep(s: State, e: Timed, home: RsaKey, external: seq<RsaKey>)
    requires Inv(s, home, external) && UpToDate(s, home)
    requires e.event.Rotate? || e.event.Prune? ==> e.event.writeOk
    ensures UpToDate(Step(s, e, home, external), home)
  {
    var s' := Step(s, e, home, external);
    match e.event
    case Rotate(_, _) =>
    case Prune(_) =>
      KeptAll(s.ring.retired, e.at);
      assert |s'.ring.retired| == |s.ring.retired| ==> s'.ring == s.ring by {
        if |s'.ring.retired| == |s.ring.retired| { assert s.ring.index - {} == s.ring.index; }
      }
    case Restart =>
      if s.saved.Some? { LoadRestores(s.ring, external); }
  }

  lemma UpToDateRemembers(s: State, e: Timed, now: real, home: RsaKey)
    requires UpToDate(s, home) && Lasting(s, now) && now <= e.at
    ensures !Forgets(s, e, home)
  {
    forall k | k in s.born && !TooOld(k, e.at) && s.saved.Some? ensures Remembered(s, home, k) {
      assert Holds(s.ring, k);
      if Same(k, s.ring.current) {
        assert In(s.ring, s.ring.current);
      } else {
        var i :| 0 <= i < |s.ring.retired| && Same(k, s.ring.retired[i]);
        assert In(s.ring, s.ring.retired[i]);
      }
    }
  }

  lemma {:induction false} RunRemembers(s: State, run: seq<Timed>, now: real, home: RsaKey, external: seq<RsaKey>)
    requires Inv(s, home, external) && Births(s, home, external, now) && Lasting(s, now) && UpToDate(s, home)
    requires Legal(s, run, now, home, external) && WritesOk(run)
    ensures NeverForgets(s, run, home, external)
    decreases |run|
  {
    if run != [] {
      var e := run[0];
      UpToDateRemembers(s, e, now, home);
      StepKeeps(s, e, home, external);
      BirthsKeep(s, e, now, home, external);
      StepLasts(s, e, now, home, external);
      UpToDateStep(s, e, home, external);
      RunRemembers(Step(s, e, home, external), run[1..], e.at, home, external);
    }
  }

  /** So every run whose writes all succeed, restarts included, gives every key its day, and the current
      key any time. */
  lemma KeysVerifyForADay(run: seq<Timed>, home: RsaKey, external: seq<RsaKey>)
    requires Usable(home) && !Has(external, home.kid)
    requires Legal(Begin(home, external), run, home.createdAt, home, external) && WritesOk(run)
    ensures AlwaysGraced(Begin(home, external), run, home.createdAt, home, external)
    ensures
      var r := After(Begin(home, external), run, home, external).ring;
      Verifies(r, r.current)
  {
    var r := After(Begin(home, external), run, home, external).ring;
    RunKeeps(Begin(home, external), run, home.createdAt, home, external);
    HeldVerifies(r, r.current, external);
    RunRemembers(Begin(home, external), run, home.createdAt, home, external);
    KeysVerifyForADayIff(run, home, external);
  }

  /**
   The grace runs from creation, not from retirement: a key retired at some instant outlives every
   prune of the following day if and only if it was created no earlier than that instant.
   */
  lemma GraceFromRetirementIff(r: Ring, key: RsaKey, retiredAt: real, external: seq<RsaKey>)
    requires Whole(r, external) && Usable(key) && key.kid !in r.index
    ensures
      (forall now: real :: retiredAt <= now <= retiredAt + 86400.0 ==>
        Verifies(Pruned(Rotated(r, key), now), r.current))
      <==> retiredAt <= r.current.createdAt
  {
    RotateKeeps(r, key, external);
    var r' := Rotated(r, key);
    assert r'.retired[|r.retired|] == r.current;
    forall now: real ensures Verifies(Pruned(r', now), r.current) <==> !TooOld(r.current, now) {
      PruneKeeps(r', now, external);
      KeptIff(r'.retired, now, r.current);
      IndexAt(r'.current, r'.retired, external, r.current.kid);
      if !TooOld(r.current, now) {
        var j :| 0 <= j < |Kept(r'.retired, now)| && Kept(r'.retired, now)[j] == r.current;
        HeldVerifies(Pruned(r', now), r.current, external);
      }
    }
    if r.current.createdAt < retiredAt { assert TooOld(r.current, retiredAt + 86400.0); }
  }

  lemma TwoEvents(s: State, e: Timed, f: Timed, now: real, home: RsaKey, external: seq<RsaKey>)
    requires now <= e.at <= f.at && Allowed(s, e, external) && Allowed(Step(s, e, home, external), f, external)
    ensures Legal(s, [e, f], now, home, external)
    ensures After(s, [e, f], home, external) == Step(Step(s, e, home, external), f, home, external)
  {
    var s1 := Step(s, e, home, external);
    assert [e, f][1..] == [f] && [f][1..] == [];
    assert Legal(Step(s1, f, home, external), [], f.at, home, external);
    assert Legal(s1, [f], e.at, home, external) && After(s1, [f], home, external) == Step(s1, f, home, external);
  }

  /** A key in use for more than a day is pruned in the first second after its retirement, and what it
      signed a moment before no longer verifies. */
  lemma RetiredAndGone(home: RsaKey, key: RsaKey)
    requires Usable(home) && Usable(key) && home.createdAt == 0.0 && key.createdAt == 100000.0 && home.kid != key.kid
    ensures
      var run := [Timed(Rotate(key, true), 100000.0), Timed(Prune(true), 100001.0)];
      Legal(Begin(home, []), run, 0.0, home, []) && !Verifies(After(Begin(home, []), run, home, []).ring, home)
  {
    var s := Begin(home, []);
    var s1 := Step(s, Timed(Rotate(key, true), 100000.0), home, []);
    TwoEvents(s, Timed(Rotate(key, true), 100000.0), Timed(Prune(true), 100001.0), 0.0, home, []);
    assert s1.ring.retired[0] == home && home in s1.ring.retired && TooOld(home, 100001.0);
    assert home.kid in KidsTooOld(s1.ring.retired, 100001.0);
  }

  /** Without a keyring file, or when its write fails, a restart loses the key of a rotation, seconds old. */
  lemma RotationIsLost(home: RsaKey, key: RsaKey)
    requires Usable(home) && Usable(key) && home.createdAt == 0.0 && key.createdAt == 10.0 && home.kid != key.kid
    ensures
      var run := [Timed(Rotate(key, false), 10.0), Timed(Restart, 20.0)];
      Legal(Begin(home, []), run, 0.0, home, []) && !Verifies(After(Begin(home, []), run, home, []).ring, key)
  {
    TwoEvents(Begin(home, []), Timed(Rotate(key, false), 10.0), Timed(Restart, 20.0), 0.0, home, []);
  }
}
