/**
 The ledgers of issued and revoked token ids (fusion_identity/store.py, jti methods;
 fusion_identity/auth.py issuing, logout, revoke and user-deletion flows).

 Access and session tokens carry their own expiry (section 4.1.4 of RFC 7519) and are accepted
 until then unless their id is on the revocation ledger. Both ledgers are swept by expiry: an
 issued id is remembered for 8 h, a revoked one until the time given when it was revoked.
 Times are reals, in seconds.
 */
module JtiLedger {
  import opened Util

  const ISSUED_TTL := 28800.0
  const REVOKED_DEFAULT_TTL := 86400.0

  datatype Issued = Issued(tenant: string, user: string, until: real)

  datatype Revoked = Revoked(tenant: string, user: Option<string>, until: real)

  type IssuedLedger = map<string, Issued>
  type RevokedLedger = map<string, Revoked>

  function SweepIssued(issued: IssuedLedger, now: real): IssuedLedger {
    map j | j in issued && !(issued[j].until < now) :: issued[j]
  }

  function SweepRevoked(revoked: RevokedLedger, now: real): RevokedLedger {
    map j | j in revoked && !(revoked[j].until < now) :: revoked[j]
  }

  /** An absent or zero expiry means a day from now. */
  function RevokedUntil(expiresAt: Option<real>, now: real): real {
    if expiresAt.None? || expiresAt.value == 0.0 then now + REVOKED_DEFAULT_TTL else expiresAt.value
  }

  /** Which issued ids a deletion of the user's account in a tenant revokes. */
  predicate Deletes(issued: IssuedLedger, revoked: RevokedLedger, user: string, tenant: string, now: real, j: string) {
    j in issued && issued[j].user == user && issued[j].tenant == tenant && issued[j].until > now && j !in revoked
  }

  /** The entry it leaves: the id stays revoked as long as it would have stayed issued. */
  function Deleted(entry: Issued, now: real): Revoked {
    Revoked(entry.tenant, Some(entry.user), RevokedUntil(Some(entry.until), now))
  }

  function RevokeUserIssued(issued: IssuedLedger, revoked: RevokedLedger, user: string, tenant: string,
                            now: real): RevokedLedger {
    revoked + map j | j in issued && Deletes(issued, revoked, user, tenant, now, j) :: Deleted(issued[j], now)
  }

  /** Who may revoke an id: the revocation ledger first, then an unexpired issued entry. */
  function LedgerOwner(issued: IssuedLedger, revoked: RevokedLedger, j: string, now: real): Option<string> {
    if j in revoked && revoked[j].tenant != "" then Some(revoked[j].tenant)
    else if j in issued && issued[j].until >= now then Some(issued[j].tenant)
    else None
  }

  /** The two ledgers as the in-memory store keeps them. */
  class Ledgers {
    var issued: IssuedLedger
    var revoked: RevokedLedger

    constructor ()
      ensures issued == map[] && revoked == map[]
    {
      issued, revoked := map[], map[];
    }

    method RecordIssuedJti(jti: string, tenant: string, user: string, now: real)
      modifies this
      ensures issued == SweepIssued(old(issued), now)[jti := Issued(tenant, user, now + ISSUED_TTL)]
      ensures revoked == old(revoked)
    {
      SweepIssuedJtis(now);
      issued := issued[jti := Issued(tenant, user, now + ISSUED_TTL)];
    }

    method SweepIssuedJtis(now: real)
      modifies this
      ensures issued == SweepIssued(old(issued), now) && revoked == old(revoked)
    {
      var before := issued;
      var expired := set j | j in issued && issued[j].until < now;
      while expired != {}
        invariant revoked == old(revoked)
        invariant forall j :: j in issued <==> j in before && (before[j].until < now ==> j in expired)
        invariant forall j :: j in issued ==> issued[j] == before[j]
        invariant forall j :: j in expired ==> j in before && before[j].until < now
        decreases expired
      {
        var j :| j in expired;
        issued := issued - {j};
        expired := expired - {j};
      }
    }

    method RevokeJti(jti: string, tenant: string, user: Option<string>, expiresAt: Option<real>, now: real)
      modifies this
      ensures revoked == old(revoked)[jti := Revoked(tenant, user, RevokedUntil(expiresAt, now))]
      ensures issued == old(issued)
    {
      var until := if expiresAt.Some? && expiresAt.value != 0.0 then expiresAt.value else now + REVOKED_DEFAULT_TTL;
      revoked := revoked[jti := Revoked(tenant, user, until)];
    }

    /** Sweeps the expired entries, then looks the id up. */
    method IsJtiRevoked(jti: string, now: real) returns (hit: bool)
      modifies this
      ensures revoked == SweepRevoked(old(revoked), now) && issued == old(issued)
      ensures hit <==> jti in old(revoked) && old(revoked)[jti].until >= now
    {
      var before := revoked;
      var expired := set j | j in revoked && revoked[j].until < now;
      while expired != {}
        invariant issued == old(issued)
        invariant forall j :: j in revoked <==> j in before && (before[j].until < now ==> j in expired)
        invariant forall j :: j in revoked ==> revoked[j] == before[j]
        invariant forall j :: j in expired ==> j in before && before[j].until < now
        decreases expired
      {
        var j :| j in expired;
        revoked := revoked - {j};
        expired := expired - {j};
      }
      hit := jti in revoked;
    }

    /** revoke_user_issued_jtis; returns the number of entries it adds. */
    method RevokeUserIssuedJtis(user: string, tenant: string, now: real) returns (count: nat)
      modifies this
      ensures revoked == RevokeUserIssued(old(issued), old(revoked), user, tenant, now)
      ensures count == |revoked| - |old(revoked)|
      ensures issued == old(issued)
    {
      var entries, ledger := issued, revoked;
      count := 0;
      ghost var hit: set<string> := {};
      var todo := entries.Keys;
      while todo != {}
        invariant issued == entries && revoked == old(revoked) && todo <= entries.Keys
        invariant Visited(entries, revoked, user, tenant, now, hit, todo)
        invariant DeletedSoFar(entries, revoked, ledger, hit, now)
        invariant |ledger| == |revoked| + count
        decreases todo
      {
        var j :| j in todo;
        var entry := entries[j];
        assert todo == (todo - {j}) + {j};
        todo := todo - {j};
        VisitOne(entries, revoked, user, tenant, now, hit, todo, j);
        if entry.user == user && entry.tenant == tenant && entry.until > now && j !in ledger {
          hit := hit + {j};
          ledger := ledger[j := Deleted(entry, now)];
          count := count + 1;
        }
      }
      assert hit == set j | j in issued && Deletes(issued, revoked, user, tenant, now, j);
      DeletedAll(issued, revoked, ledger, hit, user, tenant, now);
      revoked := ledger;
    }
  }

  /** `hit` are the visited ids that the deletion revokes. */
  ghost predicate Visited(issued: IssuedLedger, before: RevokedLedger, user: string, tenant: string, now: real,
                          hit: set<string>, todo: set<string>) {
    forall j :: j in hit <==> j in issued && j !in todo && Deletes(issued, before, user, tenant, now, j)
  }

  lemma VisitOne(issued: IssuedLedger, before: RevokedLedger, user: string, tenant: string, now: real,
                 hit: set<string>, todo: set<string>, j: string)
    requires j in issued && j !in todo && Visited(issued, before, user, tenant, now, hit, todo + {j})
    ensures j !in hit
    ensures Deletes(issued, before, user, tenant, now, j) ==>
            Visited(issued, before, user, tenant, now, hit + {j}, todo)
    ensures !Deletes(issued, before, user, tenant, now, j) ==> Visited(issued, before, user, tenant, now, hit, todo)
  {
  }

  predicate DeletedSoFar(issued: IssuedLedger, before: RevokedLedger, revoked: RevokedLedger, hit: set<string>,
                         now: real) {
    && hit <= issued.Keys && revoked.Keys == before.Keys + hit && before.Keys !! hit
    && (forall j :: j in before ==> revoked[j] == before[j])
    && (forall j :: j in hit ==> revoked[j] == Deleted(issued[j], now))
  }

  lemma DeletedAll(issued: IssuedLedger, before: RevokedLedger, revoked: RevokedLedger, hit: set<string>,
                   user: string, tenant: string, now: real)
    requires DeletedSoFar(issued, before, revoked, hit, now)
    requires hit == set j | j in issued && Deletes(issued, before, user, tenant, now, j)
    ensures revoked == RevokeUserIssued(issued, before, user, tenant, now)
  {
  }

  // ----- The token machine -----

  /** A signed access or session token and when its id was put on the issued ledger. */
  datatype Token = Token(sub: string, tenant: string, exp: real, recordedAt: real)

  datatype World = World(now: real, minted: map<string, Token>, issued: IssuedLedger, revoked: RevokedLedger)

  const Start := World(0.0, map[], map[], map[])

  /** `mintedAt` is when the token was signed, which is at most when its id is recorded. Tenant ids are
      never empty. */
  datatype Event =
    | Mint(jti: string, sub: string, tenant: string, mintedAt: real, ttl: nat)
    | Check(jti: string)
    | AdminRevoke(jti: string, tenant: string, user: Option<string>)
    | Logout(jti: string)
    | DeleteUser(sub: string, tenant: string)

  datatype Timed = Timed(at: real, ev: Event)

  function Expiry(mintedAt: real, ttl: nat): real {
    (mintedAt.Floor + ttl) as real
  }

  /** What a verification at time t needs of the token itself: it has not expired and its id is
      not on the swept ledger. The tenant, user and membership checks only refuse more. */
  predicate Accepts(w: World, j: string, t: real) {
    j in w.minted && t < w.minted[j].exp && !(j in w.revoked && w.revoked[j].until >= t)
  }

  predicate Enabled(w: World, e: Timed) {
    && w.now <= e.at
    && match e.ev
       case Mint(j, _, tenant, mintedAt, _) =>
         j !in w.minted && j !in w.revoked && tenant != "" && 0.0 <= mintedAt <= e.at
       case Check(_) => true
       case AdminRevoke(j, tenant, _) => j in w.minted ==> LedgerOwner(w.issued, w.revoked, j, e.at) == Some(tenant)
       case Logout(j) => Accepts(w, j, e.at)
       case DeleteUser(_, _) => true
  }

  function Next(w: World, e: Timed): World
    requires Enabled(w, e)
  {
    match e.ev
    case Mint(j, sub, tenant, mintedAt, ttl) =>
      World(e.at, w.minted[j := Token(sub, tenant, Expiry(mintedAt, ttl), e.at)],
            SweepIssued(w.issued, e.at)[j := Issued(tenant, sub, e.at + ISSUED_TTL)], w.revoked)
    case Check(j) => w.(now := e.at, revoked := SweepRevoked(w.revoked, e.at))
    case AdminRevoke(j, tenant, user) =>
      w.(now := e.at, revoked := w.revoked[j := Revoked(tenant, user, RevokedUntil(None, e.at))])
    case Logout(j) =>
      w.(now := e.at,
         revoked := SweepRevoked(w.revoked, e.at)[
           j := Revoked(w.minted[j].tenant, Some(w.minted[j].sub), RevokedUntil(Some(w.minted[j].exp), e.at))])
    case DeleteUser(sub, tenant) =>
      w.(now := e.at, revoked := RevokeUserIssued(w.issued, w.revoked, sub, tenant, e.at))
  }

  predicate Legal(w: World, run: seq<Timed>)
    decreases |run|
  {
    if run == [] then true else Enabled(w, run[0]) && Legal(Next(w, run[0]), run[1..])
  }

  function After(w: World, run: seq<Timed>): World
    requires Legal(w, run)
    decreases |run|
  {
    if run == [] then w else After(Next(w, run[0]), run[1..])
  }

  // ----- What every step keeps -----

  /** The issued ledger forgets an id only 8 h after it was recorded. */
  predicate IssuedOk(w: World) {
    && (forall j :: j in w.minted ==>
          && w.minted[j].recordedAt <= w.now && w.minted[j].tenant != ""
          && (if j in w.issued
              then w.issued[j] == Issued(w.minted[j].tenant, w.minted[j].sub, w.minted[j].recordedAt + 28800.0)
              else w.minted[j].recordedAt + 28800.0 < w.now))
    && (forall j :: j in w.issued ==> j in w.minted)
  }

  /** A token that does not outlive its entry on the issued ledger. */
  predicate Short(tok: Token) {
    tok.exp <= tok.recordedAt + 28800.0
  }

  /** The revocation ledger remembers every revoked short token until it has expired, and whose it is. */
  predicate RevokedOk(w: World) {
    forall j :: j in w.minted && j in w.revoked ==>
      && w.revoked[j].tenant == w.minted[j].tenant
      && (Short(w.minted[j]) ==> w.minted[j].exp <= w.revoked[j].until)
  }

  predicate Inv(w: World) {
    0.0 <= w.now && IssuedOk(w) && RevokedOk(w)
  }

  lemma StepKeeps(w: World, e: Timed)
    requires Inv(w) && Enabled(w, e)
    ensures Inv(Next(w, e))
    ensures forall j :: j in w.minted ==> j in Next(w, e).minted && Next(w, e).minted[j] == w.minted[j]
  {
    if e.ev.Mint? {
      MintKeeps(w, e);
    } else if e.ev.DeleteUser? {
      DeleteKeeps(w, e);
    } else if e.ev.AdminRevoke? {
      AdminKeeps(w, e);
    }
  }

  /** A lifetime of at most 8 h makes a token short: the seconds of its expiry are rounded down,
      and it is recorded no earlier than it is signed. */
  lemma EightHoursIsShort(w: World, e: Timed)
    requires Enabled(w, e) && e.ev.Mint? && e.ev.ttl <= 28800
    ensures Short(Next(w, e).minted[e.ev.jti])
  {
  }

  lemma MintKeeps(w: World, e: Timed)
    requires Inv(w) && Enabled(w, e) && e.ev.Mint?
    ensures Inv(Next(w, e))
  {
  }

  lemma AdminKeeps(w: World, e: Timed)
    requires Inv(w) && Enabled(w, e) && e.ev.AdminRevoke?
    ensures Inv(Next(w, e))
  {
  }

  lemma DeleteKeeps(w: World, e: Timed)
    requires Inv(w) && Enabled(w, e) && e.ev.DeleteUser?
    ensures Inv(Next(w, e))
  {
  }

  lemma {:induction false} RunKeeps(w: World, run: seq<Timed>)
    requires Inv(w) && Legal(w, run)
    ensures Inv(After(w, run)) && w.now <= After(w, run).now
    ensures forall j :: j in w.minted ==> j in After(w, run).minted && After(w, run).minted[j] == w.minted[j]
    decreases |run|
  {
    if run != [] {
      StepKeeps(w, run[0]);
      RunKeeps(Next(w, run[0]), run[1..]);
    }
  }

  /** In every reachable world only the tenant a token was minted for can be its owner on the ledgers, so
      only that tenant's administrators can revoke it; and they can while a ledger still has it. */
  lemma OwnerIs(run: seq<Timed>, j: string, at: real)
    requires Legal(Start, run) && j in After(Start, run).minted
    ensures
      var w := After(Start, run);
      LedgerOwner(w.issued, w.revoked, j, at) ==
        if j in w.revoked || (j in w.issued && at <= w.minted[j].recordedAt + 28800.0) then Some(w.minted[j].tenant)
        else None
  {
    RunKeeps(Start, run);
  }

  // ----- Revoked for good -----

  /** The token has expired, or the revocation ledger holds its id until it has. */
  predicate Gone(w: World, j: string) {
    j in w.minted && (w.minted[j].exp <= w.now || (j in w.revoked && w.minted[j].exp <= w.revoked[j].until))
  }

  /** Expiring within a day, which is what a revocation without an expiry of its own covers. */
  predicate WithinDay(w: World, j: string) {
    j in w.minted && w.minted[j].exp <= w.now + 86400.0
  }

  lemma GoneStep(w: World, e: Timed, j: string)
    requires Inv(w) && Enabled(w, e) && Gone(w, j) && WithinDay(w, j)
    ensures Gone(Next(w, e), j) && WithinDay(Next(w, e), j)
  {
  }

  /** A token that is gone is refused at all later times, in every run and despite the sweeps;
      the ledger drops its entry only once the token has expired. */
  lemma {:induction false} GoneForGood(w: World, run: seq<Timed>, j: string, t: real)
    requires Inv(w) && Legal(w, run) && Gone(w, j) && WithinDay(w, j)
    requires After(w, run).now <= t
    ensures !Accepts(After(w, run), j, t)
    ensures j !in After(w, run).revoked ==> w.minted[j].exp <= After(w, run).now
    decreases |run|
  {
    if run != [] {
      StepKeeps(w, run[0]);
      GoneStep(w, run[0], j);
      GoneForGood(Next(w, run[0]), run[1..], j, t);
    }
  }

  /** Is the token refused from now on, whatever happens? */
  ghost predicate RefusedForever(w: World, j: string) {
    forall run, t | Legal(w, run) && After(w, run).now <= t :: !Accepts(After(w, run), j, t)
  }

  lemma GoneIsRefused(w: World, j: string)
    requires Inv(w) && Gone(w, j) && WithinDay(w, j)
    ensures RefusedForever(w, j)
  {
    forall run, t | Legal(w, run) && After(w, run).now <= t ensures !Accepts(After(w, run), j, t) {
      GoneForGood(w, run, j, t);
    }
  }

  lemma AcceptedOnce(w: World, j: string, t: real)
    requires w.now <= t && Accepts(w, j, t)
    ensures !RefusedForever(w, j)
  {
    assert Legal(w, []) && After(w, []) == w;
  }

  /** Logging out is final exactly for a token that expires within a day: its entry lasts as long as the
      token, but an administrator of the tenant may revoke it again, for a day, and so shorten it. */
  lemma LogoutIsFinalIff(w: World, at: real, j: string)
    requires Inv(w) && Enabled(w, Timed(at, Logout(j)))
    ensures RefusedForever(Next(w, Timed(at, Logout(j))), j) <==> w.minted[j].exp <= at + 86400.0
  {
    var tok := w.minted[j];
    var w' := Next(w, Timed(at, Logout(j)));
    StepKeeps(w, Timed(at, Logout(j)));
    if tok.exp <= at + 86400.0 {
      GoneIsRefused(w', j);
    } else {
      Shortened(w', j);
    }
  }

  /** An administrator's revocation, allowed only to the tenant that owns the id, is final exactly
      for a token that expires within a day. */
  lemma AdminRevokeIsFinalIff(w: World, at: real, j: string, tenant: string, user: Option<string>)
    requires Inv(w) && j in w.minted && Enabled(w, Timed(at, AdminRevoke(j, tenant, user)))
    ensures RefusedForever(Next(w, Timed(at, AdminRevoke(j, tenant, user))), j)
            <==> w.minted[j].exp <= at + 86400.0
  {
    var w' := Next(w, Timed(at, AdminRevoke(j, tenant, user)));
    var exp := w.minted[j].exp;
    StepKeeps(w, Timed(at, AdminRevoke(j, tenant, user)));
    if exp <= at + 86400.0 {
      GoneIsRefused(w', j);
    } else {
      AcceptedOnce(w', j, (at + 86400.0 + exp) / 2.0);
    }
  }

  /** What a deletion makes of a token of the user: its id goes on the revocation ledger as long as it
      would have stayed issued, unless it is there already; then its entry is left as it is, and lasts
      unless an administrator shortens it. */
  predicate Ends(w: World, at: real, j: string)
    requires j in w.minted
  {
    var tok := w.minted[j];
    || tok.exp <= at
    || (if j in w.revoked then tok.exp <= w.revoked[j].until && tok.exp <= at + 86400.0 else Short(tok))
  }

  /** Deleting a user's account refuses, for good, exactly those of the user's tokens that have expired by
      then, or do not outlive their entry on the issued ledger, or, if they were revoked before, neither
      their entry on the revocation ledger nor the next day. */
  lemma DeletionIsFinalIff(w: World, at: real, j: string)
    requires Inv(w) && w.now <= at && j in w.minted
    ensures RefusedForever(Next(w, Timed(at, DeleteUser(w.minted[j].sub, w.minted[j].tenant))), j) <==> Ends(w, at, j)
  {
    var tok := w.minted[j];
    var e := Timed(at, DeleteUser(tok.sub, tok.tenant));
    var w' := Next(w, e);
    StepKeeps(w, e);
    if Ends(w, at, j) {
      GoneIsRefused(w', j);
    } else if j in w.revoked && tok.exp <= w.revoked[j].until {
      assert w'.revoked[j] == w.revoked[j];
      Shortened(w', j);
    } else {
      var until := if j in w.revoked then w.revoked[j].until else tok.recordedAt + 28800.0;
      AcceptedOnce(w', j, if until <= at then (at + tok.exp) / 2.0 else (until + tok.exp) / 2.0);
    }
  }

  /** An entry for more than a day can be replaced by one for a day. */
  lemma Shortened(w: World, j: string)
    requires Inv(w) && j in w.minted && j in w.revoked && w.minted[j].exp > w.now + 86400.0
    ensures !RefusedForever(w, j)
  {
    var again := Timed(w.now, AdminRevoke(j, w.revoked[j].tenant, None));
    OneEvent(w, again);
    assert Accepts(After(w, [again]), j, (w.now + 86400.0 + w.minted[j].exp) / 2.0);
  }

  /** With token lifetimes of at most 8 h: after the deletion of a user's account in a tenant, no
      access or session token of that user there is accepted at any later time, however its id
      came on the ledger. */
  lemma DeletionCoversShortTokens(w: World, at: real, sub: string, tenant: string, run: seq<Timed>, j: string, t: real)
    requires Inv(w) && w.now <= at
    requires j in w.minted && w.minted[j].sub == sub && w.minted[j].tenant == tenant && Short(w.minted[j])
    requires Legal(Next(w, Timed(at, DeleteUser(sub, tenant))), run)
    requires After(Next(w, Timed(at, DeleteUser(sub, tenant))), run).now <= t
    ensures !Accepts(After(Next(w, Timed(at, DeleteUser(sub, tenant))), run), j, t)
  {
    var w' := Next(w, Timed(at, DeleteUser(sub, tenant)));
    StepKeeps(w, Timed(at, DeleteUser(sub, tenant)));
    assert Gone(w', j);
    GoneForGood(w', run, j, t);
  }

  lemma OneEvent(w: World, e: Timed)
    requires Enabled(w, e)
    ensures Legal(w, [e]) && After(w, [e]) == Next(w, e)
  {
    assert [e][1..] == [];
    assert Legal(Next(w, e), []) && After(Next(w, e), []) == Next(w, e);
  }

  lemma TwoEvents(w: World, e: Timed, f: Timed)
    requires Enabled(w, e) && Enabled(Next(w, e), f)
    ensures Legal(w, [e, f]) && After(w, [e, f]) == Next(Next(w, e), f)
  {
    assert [e, f][1..] == [f];
    OneEvent(Next(w, e), f);
  }

  const SESSION_DEFAULT_TTL := 43200

  /** A session token of the default 12 h lifetime, issued at second 0 and covered by an account
      deletion one second later, is accepted again after 8 h. */
  lemma DefaultSessionComesBack()
    ensures exists run: seq<Timed> :: Legal(Start, run) && run != [] && run[|run| - 1].ev == DeleteUser("u", "t")
                          && Accepts(After(Start, run), "s", 30000.0)
  {
    var mint := Timed(0.0, Mint("s", "u", "t", 0.0, SESSION_DEFAULT_TTL));
    var del := Timed(1.0, DeleteUser("u", "t"));
    var run := [mint, del];
    var w1 := Next(Start, mint);
    var w2 := Next(w1, del);
    assert w1.minted["s"].exp == 43200.0;
    assert w2.revoked["s"].until == 28800.0;
    TwoEvents(Start, mint, del);
  }

  /** An access token configured to live for two days, revoked by an administrator in its first second,
      is accepted again after a day. */
  lemma AdminRevokedComesBack()
    ensures exists run: seq<Timed> ::
              && Legal(Start, run) && run != [] && run[|run| - 1].ev == AdminRevoke("a", "t", None)
              && Accepts(After(Start, run), "a", 90000.0)
  {
    var mint := Timed(0.0, Mint("a", "u", "t", 0.0, 172800));
    var revoke := Timed(1.0, AdminRevoke("a", "t", None));
    var w1 := Next(Start, mint);
    assert w1.minted["a"].exp == 172800.0 && w1.issued["a"] == Issued("t", "u", 28800.0);
    assert Next(w1, revoke).revoked["a"].until == 86401.0;
    TwoEvents(Start, mint, revoke);
  }
}
