/**
 The re-encryption sweep among other handlers (fusion_identity/routes/admin.py:405-457). The sweep
 lists the providers with a secret and rewrites them one by one from the list, then lists the factors
 and rewrites those; where the store waits, other handlers write and delete records in between
 (fusion_identity/routes/idps.py:35-133, fusion_identity/auth.py:906-957). One of them, verify_mfa,
 itself waits between reading a factor and writing back the blob it read.

 Beside the store the machine keeps what the other handlers alone would have made of it, and what they
 did to a record since it was listed.
 */
module KekRuns {
  import opened Util
  import opened KekSweep

  /** The current and the previous key; config.py demands two different ones. */
  datatype Keys = Keys(kek: string, prev: string)

  predicate Ok(k: Keys) {
    k.prev != "" && k.kek != k.prev
  }

  /** What the secret of a record says to a reader in the two-key window. */
  function Text(secret: Option<Blob>, k: Keys): Option<string> {
    Meaning(secret, k.kek, Some(k.prev))
  }

  /** The secret still opens under the previous key. */
  predicate Behind(secret: Option<Blob>, k: Keys) {
    LeftBehind(secret, k.prev)
  }

  /** What another handler left of a factor: nothing, or a text and a flag. */
  datatype Left = Gone | Said(text: Option<string>, enabled: bool)

  /** A verification that has read a factor, and will write back the blob it read. */
  datatype Reading = Reading(key: FactorKey, blob: Blob)

  /** Before any sweep, rewriting providers, rewriting factors. */
  datatype Stage = Fresh | Providers | Factors

  /** The store, what the other handlers alone made of it, the records still to be rewritten as they were
      listed, what other handlers left of them since, and the verifications under way. */
  datatype State = State(idps: Idps, wantIdps: Idps, listedIdps: map<string, Blob>,
                         saidIdps: map<string, Option<string>>,
                         mfa: Factors, wantMfa: Factors, listedMfa: Factors, leftMfa: map<FactorKey, Left>,
                         stage: Stage, verifying: map<nat, Reading>, nonce: nat)

  function Begin(idps: Idps, mfa: Factors): State {
    State(idps, idps, map[], map[], mfa, mfa, map[], map[], Fresh, map[], 0)
  }

  /** `CreateIdp`, `UpdateIdp` and `DropIdp` are the routes of the providers; `Enroll`, `Verify` with
      `WriteBack` or `GiveUp`, and `DropMfa` those of the factors. */
  datatype Act =
    | ListIdps
    | RewriteIdp(id: string)
    | ListMfa
    | RewriteMfa(key: FactorKey, now: real)
    | CreateIdp(id: string, tenant: string, clientId: string, text: Option<string>)
    | UpdateIdp(id: string, clientId: string, text: Option<string>)
    | DropIdp(id: string)
    | Enroll(key: FactorKey, raw: string, now: real)
    | Verify(p: nat, key: FactorKey)
    | WriteBack(p: nat, now: real)
    | GiveUp(p: nat)
    | DropMfa(key: FactorKey)

  /** Both lists of the last sweep are worked off. */
  predicate Over(s: State) {
    s.stage == Factors && s.listedMfa == map[]
  }

  /** One sweep at a time; it rewrites what it listed. A factor whose secret does not open is not verified. */
  predicate Enabled(s: State, a: Act, k: Keys) {
    match a
    case ListIdps => s.stage == Fresh || Over(s)
    case RewriteIdp(id) => id in s.listedIdps
    case ListMfa => s.stage == Providers && s.listedIdps == map[]
    case RewriteMfa(key, _) => key in s.listedMfa
    case CreateIdp(id, _, _, _) => id !in s.idps
    case Verify(p, key) => p !in s.verifying && key in s.mfa && Text(s.mfa[key].secret, k).Some?
    case WriteBack(p, _) => p in s.verifying
    case GiveUp(p) => p in s.verifying
    case _ => true
  }

  function Updated(idps: Idps, id: string, clientId: string, secret: Option<Blob>): Idps {
    if id !in idps then idps
    else idps[id := idps[id].(clientId := clientId, secret := if secret.Some? then secret else idps[id].secret)]
  }

  /** upsert_mfa: a new record is enrolled now, an old one stays enrolled when it was. */
  function Upserted(mfa: Factors, key: FactorKey, blob: Blob, enabled: bool, now: real): Factors {
    mfa[key := Mfa(Some(blob), enabled, if key in mfa then mfa[key].enrolledAt else now)]
  }

  function Next(s: State, a: Act, k: Keys): State
    requires Enabled(s, a, k)
  {
    match a
    case ListIdps =>
      s.(listedIdps := map id | id in s.idps && s.idps[id].secret.Some? :: s.idps[id].secret.value,
         saidIdps := map[], stage := Providers)
    case RewriteIdp(id) =>
      s.(idps := ResealIdp(s.idps, id, s.listedIdps[id], k.kek, k.prev, s.nonce), nonce := s.nonce + 1,
         listedIdps := s.listedIdps - {id}, saidIdps := s.saidIdps - {id})
    case ListMfa =>
      s.(listedMfa := map key | key in s.mfa && s.mfa[key].secret.Some? :: s.mfa[key],
         leftMfa := map[], stage := Factors)
    case RewriteMfa(key, now) =>
      s.(mfa := ResealMfa(s.mfa, key, s.listedMfa[key], k.kek, k.prev, s.nonce, now), nonce := s.nonce + 1,
         listedMfa := s.listedMfa - {key}, leftMfa := s.leftMfa - {key})
    case CreateIdp(id, tenant, clientId, text) =>
      var secret := if text.Some? && text.value != "" then Some(Encrypt(text.value, k.kek, s.nonce)) else None;
      var idp := Idp(tenant, clientId, secret);
      s.(idps := s.idps[id := idp], wantIdps := s.wantIdps[id := idp], nonce := s.nonce + 1,
         saidIdps := s.saidIdps[id := Text(secret, k)])
    case UpdateIdp(id, clientId, text) =>
      var secret := if text.Some? then Some(Encrypt(text.value, k.kek, s.nonce)) else None;
      s.(idps := Updated(s.idps, id, clientId, secret), wantIdps := Updated(s.wantIdps, id, clientId, secret),
         nonce := s.nonce + 1,
         saidIdps := if id in s.idps && text.Some? then s.saidIdps[id := text] else s.saidIdps)
    case DropIdp(id) =>
      s.(idps := s.idps - {id}, wantIdps := s.wantIdps - {id}, saidIdps := s.saidIdps - {id})
    case Enroll(key, raw, now) =>
      var blob := Encrypt(raw, k.kek, s.nonce);
      s.(mfa := Upserted(s.mfa, key, blob, false, now), wantMfa := Upserted(s.wantMfa, key, blob, false, now),
         nonce := s.nonce + 1, leftMfa := s.leftMfa[key := Said(Some(raw), false)])
    case Verify(p, key) =>
      s.(verifying := s.verifying[p := Reading(key, s.mfa[key].secret.value)])
    case WriteBack(p, now) =>
      var r := s.verifying[p];
      s.(mfa := Upserted(s.mfa, r.key, r.blob, true, now), wantMfa := Upserted(s.wantMfa, r.key, r.blob, true, now),
         verifying := s.verifying - {p}, leftMfa := s.leftMfa[r.key := Said(Text(Some(r.blob), k), true)])
    case GiveUp(p) =>
      s.(verifying := s.verifying - {p})
    case DropMfa(key) =>
      s.(mfa := s.mfa - {key}, wantMfa := s.wantMfa - {key}, leftMfa := s.leftMfa[key := Gone])
  }

  predicate Legal(s: State, run: seq<Act>, k: Keys)
    decreases |run|
  {
    if run == [] then true else Enabled(s, run[0], k) && Legal(Next(s, run[0], k), run[1..], k)
  }

  function After(s: State, run: seq<Act>, k: Keys): State
    requires Legal(s, run, k)
    decreases |run|
  {
    if run == [] then s else After(Next(s, run[0], k), run[1..], k)
  }

  /** What the other handlers write is what readers see next, and the other records stay. */
  lemma WritesShow(s: State, a: Act, k: Keys)
    requires Ok(k) && Enabled(s, a, k)
    ensures a.CreateIdp? ==>
              var idp := Next(s, a, k).idps[a.id];
              && idp.tenant == a.tenant && idp.clientId == a.clientId
              && Text(idp.secret, k) == (if a.text == Some("") then None else a.text)
    ensures a.UpdateIdp? && a.id in s.idps ==>
              var idp := Next(s, a, k).idps[a.id];
              && idp.tenant == s.idps[a.id].tenant && idp.clientId == a.clientId
              && Text(idp.secret, k) == (if a.text == None then Text(s.idps[a.id].secret, k) else a.text)
    ensures a.Enroll? ==>
              var m := Next(s, a, k).mfa[a.key];
              && Text(m.secret, k) == Some(a.raw) && !m.enabled
              && m.enrolledAt == if a.key in s.mfa then s.mfa[a.key].enrolledAt else a.now
    ensures a.WriteBack? ==>
              var m := Next(s, a, k).mfa[s.verifying[a.p].key];
              m.secret == Some(s.verifying[a.p].blob) && m.enabled
    ensures !(a.RewriteIdp? || a.CreateIdp? || a.UpdateIdp? || a.DropIdp?) ==> Next(s, a, k).idps == s.idps
    ensures !(a.RewriteMfa? || a.Enroll? || a.WriteBack? || a.DropMfa?) ==> Next(s, a, k).mfa == s.mfa
    ensures a.DropIdp? ==> Next(s, a, k).idps == s.idps - {a.id}
    ensures a.DropMfa? ==> Next(s, a, k).mfa == s.mfa - {a.key}
  {
  }

  // ----- Every reader sees the last write -----

  predicate SameIdp(a: Idps, b: Idps, id: string, k: Keys) {
    && (id in a <==> id in b)
    && (id in a ==>
          a[id].tenant == b[id].tenant && a[id].clientId == b[id].clientId
          && Text(a[id].secret, k) == Text(b[id].secret, k))
  }

  predicate SameMfa(a: Factors, b: Factors, key: FactorKey, k: Keys) {
    && (key in a <==> key in b)
    && (key in a ==>
          a[key].enabled == b[key].enabled && a[key].enrolledAt == b[key].enrolledAt
          && Text(a[key].secret, k) == Text(b[key].secret, k))
  }

  /** The sweep does not show: every record is there or not, and says, what the other handlers made of it. */
  ghost predicate Unseen(s: State, k: Keys) {
    (forall id :: SameIdp(s.idps, s.wantIdps, id, k)) && (forall key :: SameMfa(s.mfa, s.wantMfa, key, k))
  }

  ghost predicate AlwaysUnseen(s: State, run: seq<Act>, k: Keys)
    requires Legal(s, run, k)
    decreases |run|
  {
    Unseen(s, k) && (run != [] ==> AlwaysUnseen(Next(s, run[0], k), run[1..], k))
  }

  /** An iteration comes too late if its listed secret opens under the previous key and another handler
      has since written the record with something else or, for a factor, deleted it. */
  predicate TooLate(s: State, a: Act, k: Keys)
    requires Enabled(s, a, k)
  {
    match a
    case RewriteIdp(id) =>
      var plain := DecryptWith(s.listedIdps[id], k.prev);
      plain.Some? && id in s.saidIdps && s.saidIdps[id] != plain
    case RewriteMfa(key, _) =>
      var listed := s.listedMfa[key];
      && Behind(listed.secret, k)
      && key in s.leftMfa && s.leftMfa[key] != Said(DecryptWith(listed.secret.value, k.prev), listed.enabled)
    case _ => false
  }

  predicate NeverLate(s: State, run: seq<Act>, k: Keys)
    requires Legal(s, run, k)
    decreases |run|
  {
    run != [] ==> !TooLate(s, run[0], k) && NeverLate(Next(s, run[0], k), run[1..], k)
  }

  /** What is known of a listed provider: untouched, as another handler left it, or deleted. */
  predicate TrackedIdp(s: State, id: string, k: Keys) {
    && (id in s.saidIdps ==> id in s.idps)
    && (id in s.listedIdps && id in s.idps ==>
          if id in s.saidIdps then Text(s.idps[id].secret, k) == s.saidIdps[id]
          else s.idps[id].secret == Some(s.listedIdps[id]))
  }

  predicate TrackedMfa(s: State, key: FactorKey, k: Keys) {
    key in s.listedMfa ==>
      && s.listedMfa[key].secret.Some?
      && if key !in s.leftMfa then
           key in s.mfa && s.mfa[key].secret == s.listedMfa[key].secret
           && s.mfa[key].enabled == s.listedMfa[key].enabled
         else if s.leftMfa[key] == Gone then key !in s.mfa
         else key in s.mfa && s.leftMfa[key] == Said(Text(s.mfa[key].secret, k), s.mfa[key].enabled)
  }

  ghost predicate Inv(s: State, k: Keys) {
    && (forall id :: SameIdp(s.idps, s.wantIdps, id, k) && TrackedIdp(s, id, k))
    && (forall key :: SameMfa(s.mfa, s.wantMfa, key, k) && TrackedMfa(s, key, k))
  }

  lemma IdpStep(s: State, a: Act, k: Keys, id: string)
    requires Ok(k) && Enabled(s, a, k) && !TooLate(s, a, k)
    requires SameIdp(s.idps, s.wantIdps, id, k) && TrackedIdp(s, id, k)
    ensures SameIdp(Next(s, a, k).idps, Next(s, a, k).wantIdps, id, k) && TrackedIdp(Next(s, a, k), id, k)
  {
  }

  lemma MfaStep(s: State, a: Act, k: Keys, key: FactorKey)
    requires Ok(k) && Enabled(s, a, k) && !TooLate(s, a, k)
    requires SameMfa(s.mfa, s.wantMfa, key, k) && TrackedMfa(s, key, k)
    ensures SameMfa(Next(s, a, k).mfa, Next(s, a, k).wantMfa, key, k) && TrackedMfa(Next(s, a, k), key, k)
  {
    if !a.RewriteMfa? {
      OthersWriteBoth(s, a, k, key);
      OthersAreTracked(s, a, k, key);
    }
  }

  lemma OthersWriteBoth(s: State, a: Act, k: Keys, key: FactorKey)
    requires Enabled(s, a, k) && !a.RewriteMfa? && SameMfa(s.mfa, s.wantMfa, key, k)
    ensures SameMfa(Next(s, a, k).mfa, Next(s, a, k).wantMfa, key, k)
  {
  }

  lemma OthersAreTracked(s: State, a: Act, k: Keys, key: FactorKey)
    requires Enabled(s, a, k) && !a.RewriteMfa? && TrackedMfa(s, key, k)
    ensures TrackedMfa(Next(s, a, k), key, k)
  {
  }

  lemma StepKeeps(s: State, a: Act, k: Keys)
    requires Ok(k) && Inv(s, k) && Enabled(s, a, k) && !TooLate(s, a, k)
    ensures Inv(Next(s, a, k), k)
  {
    var s' := Next(s, a, k);
    forall id ensures SameIdp(s'.idps, s'.wantIdps, id, k) && TrackedIdp(s', id, k) { IdpStep(s, a, k, id); }
    forall key ensures SameMfa(s'.mfa, s'.wantMfa, key, k) && TrackedMfa(s', key, k) { MfaStep(s, a, k, key); }
  }

  /** A late iteration shows at once. */
  lemma LateShows(s: State, a: Act, k: Keys)
    requires Ok(k) && Inv(s, k) && Enabled(s, a, k) && TooLate(s, a, k)
    ensures !Unseen(Next(s, a, k), k)
  {
    var s' := Next(s, a, k);
    if a.RewriteIdp? {
      assert SameIdp(s.idps, s.wantIdps, a.id, k) && TrackedIdp(s, a.id, k);
      assert !SameIdp(s'.idps, s'.wantIdps, a.id, k);
    } else {
      assert SameMfa(s.mfa, s.wantMfa, a.key, k) && TrackedMfa(s, a.key, k);
      assert !SameMfa(s'.mfa, s'.wantMfa, a.key, k);
    }
  }

  lemma {:induction false} UnseenRun(s: State, run: seq<Act>, k: Keys)
    requires Ok(k) && Inv(s, k) && Legal(s, run, k)
    ensures AlwaysUnseen(s, run, k) <==> NeverLate(s, run, k)
    ensures NeverLate(s, run, k) ==> Unseen(After(s, run, k), k)
    decreases |run|
  {
    if run != [] {
      if TooLate(s, run[0], k) {
        LateShows(s, run[0], k);
      } else {
        StepKeeps(s, run[0], k);
        UnseenRun(Next(s, run[0], k), run[1..], k);
      }
    }
  }

  /**
   Over every run of sweeps among other handlers, from any store: at every instant every record is
   there exactly if the last handler left it, with the text, flag and dates of the last write, if and
   only if no iteration came too late.
   */
  lemma UnseenIff(idps: Idps, mfa: Factors, run: seq<Act>, k: Keys)
    requires Ok(k) && Legal(Begin(idps, mfa), run, k)
    ensures AlwaysUnseen(Begin(idps, mfa), run, k) <==> NeverLate(Begin(idps, mfa), run, k)
  {
    UnseenRun(Begin(idps, mfa), run, k);
  }

  // ----- The previous key runs out -----

  /** No stored secret opens under the previous key. */
  predicate Clean(s: State, k: Keys) {
    && (forall id :: id in s.idps ==> !Behind(s.idps[id].secret, k))
    && (forall key :: key in s.mfa ==> !Behind(s.mfa[key].secret, k))
  }

  /** From its listing on, a secret under the previous key is still to be rewritten, from a listed one
      that opens. */
  predicate CoveredIdp(s: State, id: string, k: Keys) {
    s.stage != Fresh && id in s.idps && Behind(s.idps[id].secret, k) ==>
      id in s.listedIdps && Behind(Some(s.listedIdps[id]), k)
  }

  predicate CoveredMfa(s: State, key: FactorKey, k: Keys) {
    s.stage == Factors && key in s.mfa && Behind(s.mfa[key].secret, k) ==>
      key in s.listedMfa && Behind(s.listedMfa[key].secret, k)
  }

  ghost predicate Covered(s: State, k: Keys) {
    (forall id :: CoveredIdp(s, id, k)) && (forall key :: CoveredMfa(s, key, k))
  }

  ghost predicate AlwaysCovered(s: State, run: seq<Act>, k: Keys)
    requires Legal(s, run, k)
    decreases |run|
  {
    Covered(s, k) && (run != [] ==> AlwaysCovered(Next(s, run[0], k), run[1..], k))
  }

  /** A verification brings the previous key back if the blob it read opens under it, and the list of
      factors was made without that blob's factor or has it no longer to rewrite. */
  predicate BringsBack(s: State, a: Act, k: Keys)
    requires Enabled(s, a, k)
  {
    && a.WriteBack? && s.stage == Factors && Behind(Some(s.verifying[a.p].blob), k)
    && var key := s.verifying[a.p].key;
       !(key in s.listedMfa && Behind(s.listedMfa[key].secret, k))
  }

  predicate NeverBack(s: State, run: seq<Act>, k: Keys)
    requires Legal(s, run, k)
    decreases |run|
  {
    run != [] ==> !BringsBack(s, run[0], k) && NeverBack(Next(s, run[0], k), run[1..], k)
  }

  lemma CoveredIdpStep(s: State, a: Act, k: Keys, id: string)
    requires Ok(k) && Enabled(s, a, k) && CoveredIdp(s, id, k)
    ensures CoveredIdp(Next(s, a, k), id, k)
  {
  }

  lemma CoveredMfaStep(s: State, a: Act, k: Keys, key: FactorKey)
    requires Ok(k) && Enabled(s, a, k) && !BringsBack(s, a, k) && CoveredMfa(s, key, k)
    ensures CoveredMfa(Next(s, a, k), key, k)
  {
  }

  lemma BackShows(s: State, a: Act, k: Keys)
    requires Enabled(s, a, k) && BringsBack(s, a, k)
    ensures !Covered(Next(s, a, k), k)
  {
    assert !CoveredMfa(Next(s, a, k), s.verifying[a.p].key, k);
  }

  lemma {:induction false} CoveredRun(s: State, run: seq<Act>, k: Keys)
    requires Ok(k) && Covered(s, k) && Legal(s, run, k)
    ensures AlwaysCovered(s, run, k) <==> NeverBack(s, run, k)
    ensures NeverBack(s, run, k) ==> Covered(After(s, run, k), k)
    decreases |run|
  {
    if run != [] {
      if BringsBack(s, run[0], k) {
        BackShows(s, run[0], k);
      } else {
        var s' := Next(s, run[0], k);
        forall id ensures CoveredIdp(s', id, k) { CoveredIdpStep(s, run[0], k, id); }
        forall key ensures CoveredMfa(s', key, k) { CoveredMfaStep(s, run[0], k, key); }
        CoveredRun(s', run[1..], k);
      }
    }
  }

  /** Factors are listed once the list of providers is worked off. */
  predicate Ordered(s: State) {
    s.stage == Factors ==> s.listedIdps == map[]
  }

  lemma OrderedStep(s: State, a: Act, k: Keys)
    requires Enabled(s, a, k) && Ordered(s)
    ensures Ordered(Next(s, a, k))
  {
  }

  lemma {:induction false} OrderedRun(s: State, run: seq<Act>, k: Keys)
    requires Legal(s, run, k) && Ordered(s)
    ensures Ordered(After(s, run, k))
    decreases |run|
  {
    if run != [] {
      OrderedStep(s, run[0], k);
      OrderedRun(Next(s, run[0], k), run[1..], k);
    }
  }

  /** A verification under way has read a blob under the previous key. */
  predicate Holding(s: State, k: Keys) {
    exists p :: p in s.verifying && Behind(Some(s.verifying[p].blob), k)
  }

  lemma CleanStep(s: State, a: Act, k: Keys)
    requires Ok(k) && Enabled(s, a, k) && Clean(s, k) && !Holding(s, k)
    ensures Clean(Next(s, a, k), k) && !Holding(Next(s, a, k), k)
  {
  }

  lemma {:induction false} CleanRun(s: State, run: seq<Act>, k: Keys)
    requires Ok(k) && Legal(s, run, k) && Clean(s, k) && !Holding(s, k)
    ensures Clean(After(s, run, k), k)
    decreases |run|
  {
    if run != [] {
      CleanStep(s, run[0], k);
      CleanRun(Next(s, run[0], k), run[1..], k);
    }
  }

  lemma OneAct(s: State, a: Act, k: Keys)
    requires Enabled(s, a, k)
    ensures Legal(s, [a], k) && After(s, [a], k) == Next(s, a, k)
  {
    assert [a][1..] == [];
    assert Legal(Next(s, a, k), [], k);
  }

  /** Once nothing is stored under the previous key, that lasts in every continuation, later sweeps
      included, if and only if no verification under way holds a blob under it. */
  lemma StaysCleanIff(s: State, k: Keys)
    requires Ok(k) && Clean(s, k)
    ensures (forall rest | Legal(s, rest, k) :: Clean(After(s, rest, k), k)) <==> !Holding(s, k)
  {
    if Holding(s, k) {
      var p :| p in s.verifying && Behind(Some(s.verifying[p].blob), k);
      OneAct(s, WriteBack(p, 0.0), k);
      assert Behind(Next(s, WriteBack(p, 0.0), k).mfa[s.verifying[p].key].secret, k);
      assert !Clean(After(s, [WriteBack(p, 0.0)], k), k);
    } else {
      forall rest | Legal(s, rest, k) ensures Clean(After(s, rest, k), k) {
        CleanRun(s, rest, k);
      }
    }
  }

  /**
   The promise of the sweep, for every run of the handler among others from any store to the end of both
   its lists. During the run every secret under the previous key is still to be rewritten, and from
   its end on none is stored in any continuation, if and only if no verification wrote such a secret
   back past its iteration, and none that has read one is still under way.
   */
  lemma NothingLeftBehindIff(idps: Idps, mfa: Factors, run: seq<Act>, k: Keys)
    requires Ok(k) && Legal(Begin(idps, mfa), run, k) && Over(After(Begin(idps, mfa), run, k))
    ensures
      var s := After(Begin(idps, mfa), run, k);
      (AlwaysCovered(Begin(idps, mfa), run, k) && forall rest | Legal(s, rest, k) :: Clean(After(s, rest, k), k))
      <==> (NeverBack(Begin(idps, mfa), run, k) && !Holding(s, k))
  {
    var s := After(Begin(idps, mfa), run, k);
    CoveredRun(Begin(idps, mfa), run, k);
    if NeverBack(Begin(idps, mfa), run, k) {
      CleanAtTheEnd(idps, mfa, run, k);
      StaysCleanIff(s, k);
    }
  }

  lemma CleanAtTheEnd(idps: Idps, mfa: Factors, run: seq<Act>, k: Keys)
    requires Ok(k) && Legal(Begin(idps, mfa), run, k) && NeverBack(Begin(idps, mfa), run, k)
    requires Over(After(Begin(idps, mfa), run, k))
    ensures Clean(After(Begin(idps, mfa), run, k), k)
  {
    var s := After(Begin(idps, mfa), run, k);
    CoveredRun(Begin(idps, mfa), run, k);
    OrderedRun(Begin(idps, mfa), run, k);
    forall id | id in s.idps ensures !Behind(s.idps[id].secret, k) { assert CoveredIdp(s, id, k); }
    forall key | key in s.mfa ensures !Behind(s.mfa[key].secret, k) { assert CoveredMfa(s, key, k); }
  }

  lemma ReadsAlone(secret: Option<Blob>, k: Keys)
    requires Ok(k) && !Behind(secret, k)
    ensures Meaning(secret, k.kek, None) == Text(secret, k)
  {
  }

  /** So then every record says, under the new key alone, what its last writer wrote. */
  lemma LastWriteSurvives(idps: Idps, mfa: Factors, run: seq<Act>, k: Keys, id: string, key: FactorKey)
    requires Ok(k) && Legal(Begin(idps, mfa), run, k) && Over(After(Begin(idps, mfa), run, k))
    requires NeverLate(Begin(idps, mfa), run, k) && NeverBack(Begin(idps, mfa), run, k)
    ensures
      var s := After(Begin(idps, mfa), run, k);
      && (id in s.wantIdps ==>
            id in s.idps && Meaning(s.idps[id].secret, k.kek, None) == Text(s.wantIdps[id].secret, k))
      && (key in s.wantMfa ==>
            key in s.mfa && Meaning(s.mfa[key].secret, k.kek, None) == Text(s.wantMfa[key].secret, k))
  {
    var s := After(Begin(idps, mfa), run, k);
    UnseenRun(Begin(idps, mfa), run, k);
    CleanAtTheEnd(idps, mfa, run, k);
    assert SameIdp(s.idps, s.wantIdps, id, k) && SameMfa(s.mfa, s.wantMfa, key, k);
    if id in s.wantIdps { ReadsAlone(s.idps[id].secret, k); }
    if key in s.wantMfa { ReadsAlone(s.mfa[key].secret, k); }
  }

  // ----- The sweep alone -----

  predicate Alone(run: seq<Act>) {
    forall i :: 0 <= i < |run| ==>
      run[i].ListIdps? || run[i].RewriteIdp? || run[i].ListMfa? || run[i].RewriteMfa?
  }

  /** Untouched, or rewritten as the sweep may rewrite it. */
  predicate SweptOr(was: Option<Blob>, secret: Option<Blob>, k: Keys) {
    secret == was || WrappedOpt(was, secret, k.kek, k.prev)
  }

  predicate UnderwayIdp(before: Idps, s: State, id: string, k: Keys) {
    && (id in s.idps <==> id in before)
    && (id in before ==>
          s.idps[id] == before[id].(secret := s.idps[id].secret) && SweptOr(before[id].secret, s.idps[id].secret, k))
    && (id in s.listedIdps ==> id in s.idps && s.idps[id].secret == Some(s.listedIdps[id]))
  }

  predicate UnderwayMfa(before: Factors, s: State, key: FactorKey, k: Keys) {
    && (key in s.mfa <==> key in before)
    && (key in before ==>
          s.mfa[key] == before[key].(secret := s.mfa[key].secret) && SweptOr(before[key].secret, s.mfa[key].secret, k))
    && (key in s.listedMfa ==> key in s.mfa && s.mfa[key] == s.listedMfa[key])
  }

  ghost predicate Underway(idps: Idps, mfa: Factors, s: State, k: Keys) {
    && s.verifying == map[]
    && (forall id :: UnderwayIdp(idps, s, id, k)) && (forall key :: UnderwayMfa(mfa, s, key, k))
  }

  lemma UnderwayStep(idps: Idps, mfa: Factors, s: State, a: Act, k: Keys)
    requires Ok(k) && Enabled(s, a, k) && Alone([a]) && Underway(idps, mfa, s, k)
    ensures Underway(idps, mfa, Next(s, a, k), k)
  {
    var s' := Next(s, a, k);
    assert [a][0] == a;
    forall id ensures UnderwayIdp(idps, s', id, k) { assert UnderwayIdp(idps, s, id, k); }
    forall key ensures UnderwayMfa(mfa, s', key, k) { assert UnderwayMfa(mfa, s, key, k); }
  }

  lemma {:induction false} UnderwayRun(idps: Idps, mfa: Factors, s: State, run: seq<Act>, k: Keys)
    requires Ok(k) && Legal(s, run, k) && Alone(run) && Underway(idps, mfa, s, k)
    ensures Underway(idps, mfa, After(s, run, k), k) && NeverBack(s, run, k)
    decreases |run|
  {
    if run != [] {
      assert Alone([run[0]]);
      UnderwayStep(idps, mfa, s, run[0], k);
      UnderwayRun(idps, mfa, Next(s, run[0], k), run[1..], k);
    }
  }

  /** Uninterrupted listings and iterations, in any order of the records, do what the loops of the
      handler do, and so does a second sweep after the first. */
  lemma AloneSweeps(idps: Idps, mfa: Factors, run: seq<Act>, k: Keys)
    requires Ok(k) && Legal(Begin(idps, mfa), run, k) && Alone(run) && Over(After(Begin(idps, mfa), run, k))
    ensures
      var s := After(Begin(idps, mfa), run, k);
      SweptIdps(idps, s.idps, k.kek, k.prev) && SweptMfa(mfa, s.mfa, k.kek, k.prev)
  {
    var s := After(Begin(idps, mfa), run, k);
    UnderwayRun(idps, mfa, Begin(idps, mfa), run, k);
    CleanAtTheEnd(idps, mfa, run, k);
    forall id ensures id in s.idps <==> id in idps { assert UnderwayIdp(idps, s, id, k); }
    forall id | id in idps
      ensures s.idps[id] == idps[id].(secret := s.idps[id].secret)
      ensures WrappedOpt(idps[id].secret, s.idps[id].secret, k.kek, k.prev)
    {
      assert UnderwayIdp(idps, s, id, k);
    }
    forall key ensures key in s.mfa <==> key in mfa { assert UnderwayMfa(mfa, s, key, k); }
    forall key | key in mfa
      ensures s.mfa[key] == mfa[key].(secret := s.mfa[key].secret)
      ensures WrappedOpt(mfa[key].secret, s.mfa[key].secret, k.kek, k.prev)
    {
      assert UnderwayMfa(mfa, s, key, k);
    }
  }

  // ----- Three runs that show it -----

  lemma Prepend(s: State, a: Act, run: seq<Act>, k: Keys)
    requires Enabled(s, a, k) && Legal(Next(s, a, k), run, k)
    ensures Legal(s, [a] + run, k) && After(s, [a] + run, k) == After(Next(s, a, k), run, k)
  {
    assert ([a] + run)[1..] == run;
  }

  lemma ThreeActs(s: State, a: Act, b: Act, c: Act, k: Keys)
    requires Enabled(s, a, k) && Enabled(Next(s, a, k), b, k) && Enabled(Next(Next(s, a, k), b, k), c, k)
    ensures Legal(s, [a, b, c], k) && After(s, [a, b, c], k) == Next(Next(Next(s, a, k), b, k), c, k)
  {
    OneAct(Next(Next(s, a, k), b, k), c, k);
    Prepend(Next(s, a, k), b, [c], k);
    Prepend(s, a, [b] + [c], k);
    assert [a] + ([b] + [c]) == [a, b, c];
  }

  /** A provider's new secret, written after the listing, is gone after its iteration. */
  lemma WriteIsLost(k: Keys, id: string, older: string, newer: string)
    requires Ok(k) && older != newer
    ensures
      var s := Begin(map[id := Idp("t", "c", Some(Encrypt(older, k.prev, 0)))], map[]);
      var run := [ListIdps, UpdateIdp(id, "c", Some(newer)), RewriteIdp(id)];
      && Legal(s, run, k) && id in After(s, run, k).idps
      && Text(After(s, run, k).idps[id].secret, k) == Some(older)
  {
    var s := Begin(map[id := Idp("t", "c", Some(Encrypt(older, k.prev, 0)))], map[]);
    ThreeActs(s, ListIdps, UpdateIdp(id, "c", Some(newer)), RewriteIdp(id), k);
  }

  /** A factor deleted after the listing is back after its iteration. */
  lemma FactorIsBack(k: Keys, key: FactorKey, text: string, now: real)
    requires Ok(k)
    ensures
      var s := Begin(map[], map[key := Mfa(Some(Encrypt(text, k.prev, 0)), true, 0.0)]);
      var run := [ListIdps] + [ListMfa, DropMfa(key), RewriteMfa(key, now)];
      && Legal(s, run, k) && key in After(s, run, k).mfa
      && Text(After(s, run, k).mfa[key].secret, k) == Some(text) && After(s, run, k).mfa[key].enabled
  {
    var s := Begin(map[], map[key := Mfa(Some(Encrypt(text, k.prev, 0)), true, 0.0)]);
    ThreeActs(Next(s, ListIdps, k), ListMfa, DropMfa(key), RewriteMfa(key, now), k);
    Prepend(s, ListIdps, [ListMfa, DropMfa(key), RewriteMfa(key, now)], k);
  }

  /** A verification that read a factor before its iteration and writes after it brings the previous key
      back: both lists are worked off, and the secret opens under nothing else. */
  lemma VerifyBringsBack(k: Keys, key: FactorKey, text: string, now: real)
    requires Ok(k)
    ensures
      var s := Begin(map[], map[key := Mfa(Some(Encrypt(text, k.prev, 0)), false, 0.0)]);
      var run := [Verify(0, key)] + ([ListIdps] + [ListMfa, RewriteMfa(key, now), WriteBack(0, now)]);
      && Legal(s, run, k) && Over(After(s, run, k)) && key in After(s, run, k).mfa
      && After(s, run, k).mfa[key].enabled && Meaning(After(s, run, k).mfa[key].secret, k.kek, None) == None
  {
    var s := Begin(map[], map[key := Mfa(Some(Encrypt(text, k.prev, 0)), false, 0.0)]);
    var s1 := Next(s, Verify(0, key), k);
    var s2 := Next(s1, ListIdps, k);
    ThreeActs(s2, ListMfa, RewriteMfa(key, now), WriteBack(0, now), k);
    Prepend(s1, ListIdps, [ListMfa, RewriteMfa(key, now), WriteBack(0, now)], k);
    Prepend(s, Verify(0, key), [ListIdps] + [ListMfa, RewriteMfa(key, now), WriteBack(0, now)], k);
  }
}
