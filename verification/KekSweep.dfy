/**
 Re-encryption under a new key-encryption key (fusion_identity/crypto.py:38-92,
 fusion_identity/routes/admin.py:382-479, fusion_identity/store.py:1691-1750).

 Authenticated encryption is ideal: a blob opens only under the key that made it. The nonce is kept
 so that two encryptions of a text can differ; key derivation is injective and left implicit.
 */
module KekSweep {
  import opened Util

  /** A stored text: an encryption, or anything else (bad base64, too short, altered). */
  datatype Blob = Cipher(kek: string, plain: string, nonce: nat) | Junk(text: string)

  function Encrypt(plain: string, kek: string, nonce: nat): Blob {
    Cipher(kek, plain, nonce)
  }

  function DecryptWith(b: Blob, kek: string): Option<string> {
    if b.Cipher? && b.kek == kek then Some(b.plain) else None
  }

  /** decrypt_secret: the current key first, then the previous one if there is a window. */
  function Decrypt(b: Blob, kek: string, prev: Option<string>): Option<string> {
    if DecryptWith(b, kek).Some? then DecryptWith(b, kek)
    else if prev.Some? && prev.value != "" && prev.value != kek then DecryptWith(b, prev.value)
    else None
  }

  /** A text opens exactly to what was sealed, under the current key or a previous one that is given. */
  lemma DecryptIs(b: Blob, kek: string, prev: Option<string>, plain: string)
    ensures Decrypt(b, kek, prev) == Some(plain) <==>
            exists nonce :: b == Cipher(kek, plain, nonce)
                            || (prev.Some? && prev.value != "" && b == Cipher(prev.value, plain, nonce))
  {
    if Decrypt(b, kek, prev) == Some(plain) { assert b == Cipher(b.kek, plain, b.nonce); }
  }

  datatype Idp = Idp(tenant: string, clientId: string, secret: Option<Blob>)

  datatype Mfa = Mfa(secret: Option<Blob>, enabled: bool, enrolledAt: real)

  /** What the sweep may do to a blob: re-encrypt what the previous key opens, leave the rest. */
  predicate Wrapped(b: Blob, b': Blob, kek: string, prev: string) {
    if DecryptWith(b, prev).Some? then DecryptWith(b', kek) == DecryptWith(b, prev) else b' == b
  }

  predicate WrappedOpt(o: Option<Blob>, o': Option<Blob>, kek: string, prev: string) {
    if o.Some? then o'.Some? && Wrapped(o.value, o'.value, kek, prev) else o' == None
  }

  /** Same records, same other fields, every secret wrapped. */
  predicate SweptIdps(a: Idps, b: Idps, kek: string, prev: string) {
    b.Keys == a.Keys && forall id :: id in a ==>
      b[id] == a[id].(secret := b[id].secret) && WrappedOpt(a[id].secret, b[id].secret, kek, prev)
  }

  predicate SweptMfa(a: Factors, b: Factors, kek: string, prev: string) {
    b.Keys == a.Keys && forall key :: key in a ==>
      b[key] == a[key].(secret := b[key].secret) && WrappedOpt(a[key].secret, b[key].secret, kek, prev)
  }

  type Idps = map<string, Idp>

  /** (user, method). */
  type FactorKey = (string, string)

  type Factors = map<FactorKey, Mfa>

  /** One iteration on a listed provider: update_idp writes only a record that is still there. */
  function ResealIdp(idps: Idps, id: string, listed: Blob, kek: string, prev: string, nonce: nat): Idps {
    var plain := DecryptWith(listed, prev);
    if plain.None? || id !in idps then idps
    else idps[id := idps[id].(secret := Some(Encrypt(plain.value, kek, nonce)))]
  }

  /** One iteration on a listed factor: upsert_mfa writes the listed flag, and a record that is gone again. */
  function ResealMfa(mfa: Factors, key: FactorKey, listed: Mfa, kek: string, prev: string, nonce: nat,
                     now: real): Factors {
    var plain := if listed.secret.Some? then DecryptWith(listed.secret.value, prev) else None;
    if plain.None? then mfa
    else
      var enrolledAt := if key in mfa then mfa[key].enrolledAt else now;
      mfa[key := Mfa(Some(Encrypt(plain.value, kek, nonce)), listed.enabled, enrolledAt)]
  }

  /** The records whose secret the previous key opens, and those whose secret it does not. */
  function IdpsOpening(idps: Idps, prev: string): set<string> {
    set id | id in idps && idps[id].secret.Some? && DecryptWith(idps[id].secret.value, prev).Some?
  }

  function IdpsNotOpening(idps: Idps, prev: string): set<string> {
    set id | id in idps && idps[id].secret.Some? && DecryptWith(idps[id].secret.value, prev).None?
  }

  function MfaOpening(mfa: Factors, prev: string): set<FactorKey> {
    set key | key in mfa && mfa[key].secret.Some? && DecryptWith(mfa[key].secret.value, prev).Some?
  }

  function MfaNotOpening(mfa: Factors, prev: string): set<FactorKey> {
    set key | key in mfa && mfa[key].secret.Some? && DecryptWith(mfa[key].secret.value, prev).None?
  }

  datatype Counts = Counts(total: nat, migrated: nat, skipped: nat, failed: nat)

  /** Those that opened were migrated, those that did not failed, and none was skipped. */
  predicate Counting<T>(n: Counts, opening: set<T>, notOpening: set<T>) {
    n.migrated == |opening| && n.failed == |notOpening| && n.skipped == 0 && n.total == n.migrated + n.failed
  }

  /** The counts when all but some records are worked off, of those that open and those that do not. */
  ghost function Tally<T>(yes: set<T>, no: set<T>, todo: set<T>): Counts {
    Counts(|yes - todo| + |no - todo|, |yes - todo|, 0, |no - todo|)
  }

  lemma NothingYet<T>(yes: set<T>, no: set<T>, todo: set<T>)
    requires yes + no == todo
    ensures Tally(yes, no, todo) == Counts(0, 0, 0, 0)
  {
    assert yes - todo == {} && no - todo == {};
  }

  lemma OpensOrNot(idps: Idps, prev: string, todo: set<string>)
    requires todo == set id | id in idps && idps[id].secret.Some?
    ensures IdpsOpening(idps, prev) + IdpsNotOpening(idps, prev) == todo
  {
  }

  lemma OneTallied<T>(yes: set<T>, no: set<T>, todo: set<T>, x: T)
    requires x in todo && (x in yes <==> x !in no)
    ensures
      Tally(yes, no, todo - {x}) == Noted(Tally(yes, no, todo), x in yes)
  {
    if x in yes {
      assert yes - (todo - {x}) == (yes - todo) + {x} && no - (todo - {x}) == no - todo;
    } else {
      assert no - (todo - {x}) == (no - todo) + {x} && yes - (todo - {x}) == yes - todo;
    }
  }

  lemma AllTallied<T>(yes: set<T>, no: set<T>)
    ensures Tally(yes, no, {}) == Counts(|yes| + |no|, |yes|, 0, |no|)
  {
    assert yes - {} == yes && no - {} == no;
  }

  /** All but some records are swept, and those are untouched. */
  predicate UnderwayIdps(listed: Idps, idps: Idps, todo: set<string>, kek: string, prev: string) {
    && idps.Keys == listed.Keys
    && (forall id :: id in todo ==> id in listed && listed[id].secret.Some? && idps[id] == listed[id])
    && (forall id :: id in listed && id !in todo ==>
          idps[id] == listed[id].(secret := idps[id].secret)
          && WrappedOpt(listed[id].secret, idps[id].secret, kek, prev))
  }

  predicate UnderwayMfa(listed: Factors, mfa: Factors, todo: set<FactorKey>, kek: string, prev: string) {
    && mfa.Keys == listed.Keys
    && (forall key :: key in todo ==> key in listed && listed[key].secret.Some? && mfa[key] == listed[key])
    && (forall key :: key in listed && key !in todo ==>
          mfa[key] == listed[key].(secret := mfa[key].secret)
          && WrappedOpt(listed[key].secret, mfa[key].secret, kek, prev))
  }

  lemma SweptIdp(listed: Idps, idps: Idps, todo: set<string>, id: string, kek: string, prev: string, nonce: nat)
    requires UnderwayIdps(listed, idps, todo, kek, prev) && id in todo
    ensures UnderwayIdps(listed, ResealIdp(idps, id, listed[id].secret.value, kek, prev, nonce), todo - {id}, kek, prev)
  {
  }

  lemma SweptFactor(listed: Factors, mfa: Factors, todo: set<FactorKey>, key: FactorKey, kek: string, prev: string,
                    nonce: nat, now: real)
    requires UnderwayMfa(listed, mfa, todo, kek, prev) && key in todo
    ensures UnderwayMfa(listed, ResealMfa(mfa, key, listed[key], kek, prev, nonce, now), todo - {key}, kek, prev)
  {
  }

  /** One record's part in the counts. */
  function Noted(n: Counts, migrated: bool): Counts {
    var m := n.(total := n.total + 1);
    if migrated then m.(migrated := m.migrated + 1) else m.(failed := m.failed + 1)
  }

  class SecretStore {
    var idps: Idps
    var mfa: Factors
    var appCredentials: map<string, Blob>
    var nonce: nat

    constructor (idps: Idps, mfa: Factors, appCredentials: map<string, Blob>)
      ensures this.idps == idps && this.mfa == mfa && this.appCredentials == appCredentials
    {
      this.idps, this.mfa, this.appCredentials, nonce := idps, mfa, appCredentials, 0;
    }

    method EncryptSecret(plain: string, kek: string) returns (b: Blob)
      modifies `nonce
      ensures b == Encrypt(plain, kek, old(nonce)) && DecryptWith(b, kek) == Some(plain) && nonce == old(nonce) + 1
    {
      b := Encrypt(plain, kek, nonce);
      nonce := nonce + 1;
    }

    /** The body of the first loop. */
    method ReencryptIdp(id: string, blob: Blob, kek: string, prev: string) returns (migrated: bool)
      modifies `idps, `nonce
      ensures migrated == DecryptWith(blob, prev).Some?
      ensures idps == ResealIdp(old(idps), id, blob, kek, prev, old(nonce))
      ensures nonce == if migrated then old(nonce) + 1 else old(nonce)
    {
      var plain := DecryptWith(blob, prev);
      if plain.None? {
        return false;
      }
      var b := EncryptSecret(plain.value, kek);
      if id in idps {
        idps := idps[id := idps[id].(secret := Some(b))];
      }
      return true;
    }

    /** The identity providers that have a secret, in dictionary order or any other. */
    method SweepIdps(kek: string, prev: string) returns (n: Counts)
      modifies `idps, `nonce
      ensures SweptIdps(old(idps), idps, kek, prev)
      ensures Counting(n, IdpsOpening(old(idps), prev), IdpsNotOpening(old(idps), prev))
    {
      var listed := idps;
      ghost var yes, no := IdpsOpening(idps, prev), IdpsNotOpening(idps, prev);
      var todo := set id | id in idps && idps[id].secret.Some?;
      n := Counts(0, 0, 0, 0);
      OpensOrNot(idps, prev, todo);
      NothingYet(yes, no, todo);
      while todo != {}
        invariant n == Tally(yes, no, todo) && UnderwayIdps(listed, idps, todo, kek, prev)
        decreases todo
      {
        var id :| id in todo;
        ghost var before, used := idps, nonce;
        var migrated := ReencryptIdp(id, listed[id].secret.value, kek, prev);
        assert migrated <==> id in yes;
        n := n.(total := n.total + 1);
        n := if migrated then n.(migrated := n.migrated + 1) else n.(failed := n.failed + 1);
        assert n == Tally(yes, no, todo - {id}) by { OneTallied(yes, no, todo, id); }
        assert UnderwayIdps(listed, idps, todo - {id}, kek, prev) by {
          SweptIdp(listed, before, todo, id, kek, prev, used);
        }
        todo := todo - {id};
      }
      AllTallied(yes, no);
    }

    /** The body of the second loop. */
    method ReencryptMfa(key: FactorKey, rec: Mfa, kek: string, prev: string, now: real) returns (migrated: bool)
      requires rec.secret.Some?
      modifies `mfa, `nonce
      ensures migrated == DecryptWith(rec.secret.value, prev).Some?
      ensures mfa == ResealMfa(old(mfa), key, rec, kek, prev, old(nonce), now)
      ensures nonce == if migrated then old(nonce) + 1 else old(nonce)
    {
      var plain := DecryptWith(rec.secret.value, prev);
      if plain.None? {
        return false;
      }
      var b := EncryptSecret(plain.value, kek);
      mfa := mfa[key := Mfa(Some(b), rec.enabled, if key in mfa then mfa[key].enrolledAt else now)];
      return true;
    }

    /** The factors that have a secret; enabled and enrolled_at are written back as they were. */
    method SweepMfa(kek: string, prev: string, now: real) returns (n: Counts)
      modifies `mfa, `nonce
      ensures SweptMfa(old(mfa), mfa, kek, prev)
      ensures Counting(n, MfaOpening(old(mfa), prev), MfaNotOpening(old(mfa), prev))
    {
      var listed := mfa;
      ghost var yes, no := MfaOpening(mfa, prev), MfaNotOpening(mfa, prev);
      var todo := set key | key in mfa && mfa[key].secret.Some?;
      n := Counts(0, 0, 0, 0);
      NothingYet(yes, no, todo);
      while todo != {}
        invariant n == Tally(yes, no, todo) && UnderwayMfa(listed, mfa, todo, kek, prev)
        decreases todo
      {
        var key :| key in todo;
        ghost var before, used := mfa, nonce;
        var migrated := ReencryptMfa(key, listed[key], kek, prev, now);
        n := n.(total := n.total + 1);
        n := if migrated then n.(migrated := n.migrated + 1) else n.(failed := n.failed + 1);
        OneTallied(yes, no, todo, key);
        SweptFactor(listed, before, todo, key, kek, prev, used, now);
        todo := todo - {key};
      }
      AllTallied(yes, no);
    }

    /** admin_kek_reencrypt: refused without a previous key. */
    method Reencrypt(kek: string, prev: Option<string>, now: real) returns (r: Option<(Counts, Counts)>)
      modifies `idps, `mfa, `nonce
      ensures r.None? <==> prev.None? || prev.value == ""
      ensures r.None? ==> idps == old(idps) && mfa == old(mfa)
      ensures r.Some? ==> SweptIdps(old(idps), idps, kek, prev.value) && SweptMfa(old(mfa), mfa, kek, prev.value)
      ensures r.Some? ==> Counting(r.value.0, IdpsOpening(old(idps), prev.value), IdpsNotOpening(old(idps), prev.value))
      ensures r.Some? ==> Counting(r.value.1, MfaOpening(old(mfa), prev.value), MfaNotOpening(old(mfa), prev.value))
    {
      if prev.None? || prev.value == "" {
        return None;
      }
      var i := SweepIdps(kek, prev.value);
      var m := SweepMfa(kek, prev.value, now);
      return Some((i, m));
    }
  }

  // ----- What the sweep means -----

  /** What opened in the two-key window opens under the new key alone afterwards, to the same text,
      and nothing else does. */
  lemma WrapPreserves(b: Blob, b': Blob, kek: string, prev: string)
    requires Wrapped(b, b', kek, prev) && prev != "" && kek != prev
    ensures Decrypt(b', kek, None) == Decrypt(b, kek, Some(prev)) == Decrypt(b', kek, Some(prev))
  {
  }

  lemma WrapTwice(b: Blob, b': Blob, b'': Blob, kek: string, prev: string)
    requires Wrapped(b, b', kek, prev) && Wrapped(b', b'', kek, prev) && kek != prev
    ensures b'' == b'
  {
  }

  function Meaning(o: Option<Blob>, kek: string, prev: Option<string>): Option<string> {
    if o.Some? then Decrypt(o.value, kek, prev) else None
  }

  /** Every provider and factor secret means after the sweep, under the new key alone, what it meant
      before it in the window; everything else about the records is kept. */
  lemma SweepPreserves(idps: Idps, idps': Idps, mfa: Factors, mfa': Factors,
                       kek: string, prev: string)
    requires SweptIdps(idps, idps', kek, prev) && SweptMfa(mfa, mfa', kek, prev) && prev != "" && kek != prev
    ensures forall id :: id in idps ==>
              && id in idps' && idps'[id].tenant == idps[id].tenant && idps'[id].clientId == idps[id].clientId
              && Meaning(idps'[id].secret, kek, None) == Meaning(idps[id].secret, kek, Some(prev))
    ensures forall key :: key in mfa ==>
              && key in mfa' && mfa'[key].enabled == mfa[key].enabled && mfa'[key].enrolledAt == mfa[key].enrolledAt
              && Meaning(mfa'[key].secret, kek, None) == Meaning(mfa[key].secret, kek, Some(prev))
  {
  }

  /** A second sweep changes nothing, nonces included. */
  lemma SweepTwice(a: Idps, b: Idps, c: Idps,
                   m: Factors, n: Factors, o: Factors, kek: string, prev: string)
    requires SweptIdps(a, b, kek, prev) && SweptIdps(b, c, kek, prev) && SweptMfa(m, n, kek, prev)
             && SweptMfa(n, o, kek, prev) && kek != prev
    ensures c == b && o == n
  {
    forall id | id in b ensures c[id] == b[id] {
      if a[id].secret.Some? { WrapTwice(a[id].secret.value, b[id].secret.value, c[id].secret.value, kek, prev); }
    }
    forall key | key in n ensures o[key] == n[key] {
      if m[key].secret.Some? { WrapTwice(m[key].secret.value, n[key].secret.value, o[key].secret.value, kek, prev); }
    }
  }

  /** The secret still opens under the previous key. */
  predicate LeftBehind(o: Option<Blob>, prev: string) {
    o.Some? && DecryptWith(o.value, prev).Some?
  }

  /**
   Application credentials are encrypted under the same key but are not swept. After the sweep,
   dropping the previous key loses no stored secret if and only if no application credential was
   still encrypted under it.
   */
  lemma WindowClosesCleanlyIff(idps: Idps, idps': Idps, mfa: Factors, mfa': Factors,
                               apps: map<string, Blob>, kek: string, prev: string)
    requires SweptIdps(idps, idps', kek, prev) && SweptMfa(mfa, mfa', kek, prev) && prev != "" && kek != prev
    ensures
      ((forall id :: id in idps' ==> !LeftBehind(idps'[id].secret, prev))
       && (forall key :: key in mfa' ==> !LeftBehind(mfa'[key].secret, prev))
       && (forall name :: name in apps ==> Decrypt(apps[name], kek, None) == Decrypt(apps[name], kek, Some(prev))))
      <==> (forall name :: name in apps ==> DecryptWith(apps[name], prev).None?)
  {
    forall name | name in apps
      ensures Decrypt(apps[name], kek, None) == Decrypt(apps[name], kek, Some(prev))
              <==> DecryptWith(apps[name], prev).None?
    {
      CloseIff(apps[name], kek, prev);
    }
  }

  lemma CloseIff(b: Blob, kek: string, prev: string)
    requires prev != "" && kek != prev
    ensures Decrypt(b, kek, None) == Decrypt(b, kek, Some(prev)) <==> DecryptWith(b, prev).None?
  {
  }

  /** A credential sealed under the previous key opens in the window and no longer once it closes. */
  lemma CredentialIsLost(name: string, text: string, kek: string, prev: string)
    requires prev != "" && kek != prev
    ensures
      var apps := map[name := Encrypt(text, prev, 0)];
      Decrypt(apps[name], kek, Some(prev)) == Some(text) && Decrypt(apps[name], kek, None) == None
  {
    CloseIff(Encrypt(text, prev, 0), kek, prev);
  }
}
