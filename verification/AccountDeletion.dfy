/**
 Deleting an account among logins and refreshes (fusion_identity/auth.py:611-652, 357-420, 692-792). The
 deletion puts the user's issued ids on the revocation ledger, waits, and then revokes the user's
 refresh tokens. A login waits between its password check, the recording of its access token and the
 storing of its refresh token; a refresh between its compare-and-set, the recording of the new
 access token and the storing of the new refresh token.

 Refresh tokens are those of the rotation machine. Of an access token only its owner counts here, and
 whether a deletion put its id on the ledger; how long that lasts is the matter of the ledgers.
 */
module AccountDeletion {
  import opened Util
  import R = RefreshFamily

  datatype Access = Access(tenant: string, user: string, alive: bool)

  /** A login that has passed its checks, before and after its access token is recorded. */
  datatype Login = Passed(tenant: string, user: string) | Recorded(tenant: string, user: string)

  /** Refresh tokens and calls, access tokens on the issued ledger, logins under way, and the refresh
      calls whose new access token is recorded. */
  datatype State = State(r: R.State, access: map<string, Access>, logins: map<nat, Login>, recorded: set<nat>)

  const Start := State(R.Start, map[], map[], {})

  datatype Step =
    | Enter(p: nat, tenant: string, user: string)
    | RecordLogin(p: nat, jti: string)
    | StoreLogin(p: nat, jti: string, family: string)
    | Refresh(step: R.Step)
    | RecordRefresh(p: nat, jti: string)
    | KillIssued(user: string, tenant: string)
    | EndSessions(user: string)

  predicate Enabled(s: State, e: Step) {
    match e
    case Enter(p, _, _) => p !in s.logins
    case RecordLogin(p, jti) => p in s.logins && s.logins[p].Passed? && jti !in s.access
    case StoreLogin(p, jti, family) =>
      p in s.logins && s.logins[p].Recorded? && R.Enabled(s.r, LoginStep(s.logins[p], jti, family))
    case Refresh(step) => !step.Login? && R.Enabled(s.r, step) && (step.Insert? ==> step.p in s.recorded)
    case RecordRefresh(p, jti) => p in s.r.calls && s.r.calls[p].Won? && p !in s.recorded && jti !in s.access
    case KillIssued(_, _) => true
    case EndSessions(_) => true
  }

  function LoginStep(l: Login, jti: string, family: string): R.Step {
    R.Login(jti, family, l.tenant, l.user)
  }

  predicate Of(tenant: string, user: string, t: string, u: string) {
    tenant == t && user == u
  }

  function Killed(access: map<string, Access>, u: string, t: string): map<string, Access> {
    map j | j in access ::
      if Of(access[j].tenant, access[j].user, t, u) then access[j].(alive := false) else access[j]
  }

  function Next(s: State, e: Step): State
    requires Enabled(s, e)
  {
    match e
    case Enter(p, t, u) => s.(logins := s.logins[p := Passed(t, u)])
    case RecordLogin(p, jti) =>
      var l := s.logins[p];
      s.(access := s.access[jti := Access(l.tenant, l.user, true)],
         logins := s.logins[p := Recorded(l.tenant, l.user)])
    case StoreLogin(p, jti, family) =>
      s.(r := R.Next(s.r, LoginStep(s.logins[p], jti, family)), logins := s.logins - {p})
    case Refresh(step) => s.(r := R.Next(s.r, step))
    case RecordRefresh(p, jti) =>
      var c := s.r.calls[p];
      s.(access := s.access[jti := Access(c.tenant, c.user, true)], recorded := s.recorded + {p})
    case KillIssued(u, t) => s.(access := Killed(s.access, u, t))
    case EndSessions(u) => s.(r := R.Next(s.r, R.RevokeAll(R.OfUser(u))))
  }

  predicate Legal(s: State, run: seq<Step>)
    decreases |run|
  {
    if run == [] then true else Enabled(s, run[0]) && Legal(Next(s, run[0]), run[1..])
  }

  function After(s: State, run: seq<Step>): State
    requires Legal(s, run)
    decreases |run|
  {
    if run == [] then s else After(Next(s, run[0]), run[1..])
  }

  /** A refresh records its access token once, and only then can it store the refresh token. */
  lemma RecordsThenStores(s: State, p: nat, jti: string, again: string)
    requires Enabled(s, RecordRefresh(p, jti))
    ensures !Enabled(s, Refresh(R.Insert(p)))
    ensures
      var s' := Next(s, RecordRefresh(p, jti));
      && Enabled(s', Refresh(R.Insert(p))) && !Enabled(s', RecordRefresh(p, again))
      && s'.access == s.access[jti := Access(s.r.calls[p].tenant, s.r.calls[p].user, true)] && s'.r == s.r
  {
  }

  // ----- The rotation machine underneath -----

  ghost predicate Sound(s: State) {
    R.Inv(s.r) && R.HoldersOk(s.r)
  }

  /** The step of the rotation machine in a step, if there is one. */
  function Inner(s: State, e: Step): Option<R.Step>
    requires Enabled(s, e)
  {
    match e
    case StoreLogin(p, jti, family) => Some(LoginStep(s.logins[p], jti, family))
    case Refresh(step) => Some(step)
    case EndSessions(u) => Some(R.RevokeAll(R.OfUser(u)))
    case _ => None
  }

  lemma InnerSteps(s: State, e: Step)
    requires Enabled(s, e)
    ensures
      match Inner(s, e)
      case Some(step) => R.Enabled(s.r, step) && Next(s, e).r == R.Next(s.r, step)
      case None => Next(s, e).r == s.r
  {
  }

  lemma StepKeeps(s: State, e: Step)
    requires Sound(s) && Enabled(s, e)
    ensures Sound(Next(s, e))
  {
    InnerSteps(s, e);
    if Inner(s, e).Some? {
      R.StepKeeps(s.r, Inner(s, e).value);
      R.HoldersStep(s.r, Inner(s, e).value);
    }
  }

  lemma {:induction false} RunKeeps(s: State, run: seq<Step>)
    requires Sound(s) && Legal(s, run)
    ensures Sound(After(s, run))
    decreases |run|
  {
    if run != [] {
      StepKeeps(s, run[0]);
      RunKeeps(Next(s, run[0]), run[1..]);
    }
  }

  // ----- Deletion -----

  /** The two steps of a deletion end what is the user's, the first in the tenant, and spare all else. */
  lemma DeletionSpares(s: State, u: string, t: string, j: string)
    ensures
      var s' := Next(s, KillIssued(u, t));
      && s' == s.(access := s'.access) && s'.access.Keys == s.access.Keys
      && (j in s.access ==>
            var a := s.access[j];
            s'.access[j] == if a.tenant == t && a.user == u then Access(t, u, false) else a)
    ensures
      var s' := Next(s, EndSessions(u));
      && s' == s.(r := s.r.(tokens := s'.r.tokens)) && s'.r.tokens.Keys == s.r.tokens.Keys
      && (j in s.r.tokens ==>
            var r := s.r.tokens[j];
            s'.r.tokens[j] == if r.user == u then r.(status := R.Revoked) else r)
  {
  }

  predicate NoneAlive(s: State, u: string, t: string) {
    forall j :: j in s.access && Of(s.access[j].tenant, s.access[j].user, t, u) ==> !s.access[j].alive
  }

  /** The user has nothing in the tenant that still works: no access token, no refresh token. */
  predicate Shut(s: State, u: string, t: string) {
    && NoneAlive(s, u, t)
    && (forall j :: j in s.r.tokens && Of(s.r.tokens[j].tenant, s.r.tokens[j].user, t, u) ==>
          s.r.tokens[j].status != R.Active)
  }

  predicate LoginUnderWay(s: State, u: string, t: string) {
    exists p :: p in s.logins && Of(s.logins[p].tenant, s.logins[p].user, t, u)
  }

  /** A refresh call has won its compare-and-set and has not stored its token. */
  predicate RefreshUnderWay(s: State, u: string, t: string) {
    exists p :: p in s.r.calls && s.r.calls[p].Won? && Of(s.r.calls[p].tenant, s.r.calls[p].user, t, u)
  }

  predicate NoEntry(run: seq<Step>, u: string, t: string) {
    forall i :: 0 <= i < |run| && run[i].Enter? ==> !Of(run[i].tenant, run[i].user, t, u)
  }

  /** Nothing works and nothing is on its way. */
  ghost predicate Ended(s: State, u: string, t: string) {
    && NoneAlive(s, u, t) && !LoginUnderWay(s, u, t)
    && (forall f :: f in s.r.holders && s.r.holders[f] == R.Holder(t, u) ==> R.Dead(s.r, f))
  }

  lemma EndedIsShut(s: State, u: string, t: string)
    requires Sound(s) && Ended(s, u, t)
    ensures Shut(s, u, t)
  {
  }

  lemma DeadStays(s: State, e: Step, u: string, t: string, f: string)
    requires Sound(s) && Ended(s, u, t) && Enabled(s, e)
    requires f in Next(s, e).r.holders && Next(s, e).r.holders[f] == R.Holder(t, u)
    ensures R.Dead(Next(s, e).r, f)
  {
    InnerSteps(s, e);
    if Inner(s, e).Some? {
      assert f in s.r.holders && s.r.holders[f] == R.Holder(t, u);
      R.DeadStep(s.r, Inner(s, e).value, f);
    }
  }

  lemma NoneComesAlive(s: State, e: Step, u: string, t: string)
    requires Sound(s) && Ended(s, u, t) && Enabled(s, e) && NoEntry([e], u, t)
    ensures NoneAlive(Next(s, e), u, t) && !LoginUnderWay(Next(s, e), u, t)
  {
    assert [e][0] == e;
    if e.RecordRefresh? {
      var c := s.r.calls[e.p];
      assert s.r.holders[c.family] == R.Holder(c.tenant, c.user);
    }
  }

  lemma EndedStep(s: State, e: Step, u: string, t: string)
    requires Sound(s) && Ended(s, u, t) && Enabled(s, e) && NoEntry([e], u, t)
    ensures Ended(Next(s, e), u, t)
  {
    NoneComesAlive(s, e, u, t);
    forall f | f in Next(s, e).r.holders && Next(s, e).r.holders[f] == R.Holder(t, u) ensures R.Dead(Next(s, e).r, f) {
      DeadStays(s, e, u, t, f);
    }
  }

  lemma {:induction false} EndedRun(s: State, run: seq<Step>, u: string, t: string)
    requires Sound(s) && Ended(s, u, t) && Legal(s, run) && NoEntry(run, u, t)
    ensures Shut(After(s, run), u, t)
    decreases |run|
  {
    if run == [] {
      EndedIsShut(s, u, t);
    } else {
      assert NoEntry([run[0]], u, t);
      StepKeeps(s, run[0]);
      EndedStep(s, run[0], u, t);
      EndedRun(Next(s, run[0]), run[1..], u, t);
    }
  }

  /** Revoking the sessions ends everything that is not on its way. */
  lemma SessionsEnd(s: State, u: string, t: string)
    requires Sound(s) && NoneAlive(s, u, t) && !LoginUnderWay(s, u, t) && !RefreshUnderWay(s, u, t)
    ensures Ended(Next(s, EndSessions(u)), u, t)
  {
    var s' := Next(s, EndSessions(u));
    forall f | f in s'.r.holders && s'.r.holders[f] == R.Holder(t, u) ensures R.Dead(s'.r, f) {
      assert f in s.r.chains;
      forall p | p in s.r.calls && s.r.calls[p].Won? ensures s.r.calls[p].family != f {
        assert s.r.holders[s.r.calls[p].family] == R.Holder(s.r.calls[p].tenant, s.r.calls[p].user);
      }
    }
  }

  lemma OneStep(s: State, e: Step)
    requires Enabled(s, e)
    ensures Legal(s, [e]) && After(s, [e]) == Next(s, e)
  {
    assert [e][1..] == [];
    assert Legal(Next(s, e), []);
  }

  lemma LoginReturns(s: State, p: nat) returns (e: Step)
    requires p in s.logins
    ensures Enabled(s, e) && !e.Enter? && !Shut(Next(s, e), s.logins[p].user, s.logins[p].tenant)
  {
    var l := s.logins[p];
    if l.Passed? {
      var j := NewString(s.access.Keys);
      e := RecordLogin(p, j);
      assert Next(s, e).access[j] == Access(l.tenant, l.user, true);
    } else {
      var j := NewString(s.r.owner.Keys);
      var f := NewString(s.r.chains.Keys);
      e := StoreLogin(p, j, f);
      assert j in Next(s, e).r.tokens;
    }
  }

  lemma RefreshReturns(s: State, p: nat) returns (e: Step)
    requires p in s.r.calls && s.r.calls[p].Won?
    ensures Enabled(s, e) && !e.Enter? && !Shut(Next(s, e), s.r.calls[p].user, s.r.calls[p].tenant)
  {
    var c := s.r.calls[p];
    if p in s.recorded {
      e := Refresh(R.Insert(p));
      assert c.jti in Next(s, e).r.tokens;
    } else {
      var j := NewString(s.access.Keys);
      e := RecordRefresh(p, j);
      assert Next(s, e).access[j] == Access(c.tenant, c.user, true);
    }
  }

  lemma SomethingReturns(s: State, u: string, t: string) returns (run: seq<Step>)
    requires !NoneAlive(s, u, t) || LoginUnderWay(s, u, t) || RefreshUnderWay(s, u, t)
    ensures Legal(s, run) && NoEntry(run, u, t) && !Shut(After(s, run), u, t)
  {
    if !NoneAlive(s, u, t) { return []; }
    var e: Step;
    if LoginUnderWay(s, u, t) {
      var p :| p in s.logins && Of(s.logins[p].tenant, s.logins[p].user, t, u);
      e := LoginReturns(s, p);
    } else {
      var p :| p in s.r.calls && s.r.calls[p].Won? && Of(s.r.calls[p].tenant, s.r.calls[p].user, t, u);
      e := RefreshReturns(s, p);
    }
    OneStep(s, e);
    return [e];
  }

  /**
   When a deletion has revoked the sessions: nothing of the user works in the tenant, now or in any
   continuation without a new login, if and only if by then no access token was recorded since the ids
   were revoked, no login of the user is past its checks, and no refresh past its compare-and-set.
   */
  lemma DeletionIsFinalIff(before: seq<Step>, u: string, t: string)
    requires Legal(Start, before)
    ensures
      var s := After(Start, before);
      var s' := Next(s, EndSessions(u));
      (forall run | Legal(s', run) && NoEntry(run, u, t) :: Shut(After(s', run), u, t))
      <==> (NoneAlive(s, u, t) && !LoginUnderWay(s, u, t) && !RefreshUnderWay(s, u, t))
  {
    var s := After(Start, before);
    var s' := Next(s, EndSessions(u));
    RunKeeps(Start, before);
    StepKeeps(s, EndSessions(u));
    if !NoneAlive(s, u, t) || LoginUnderWay(s, u, t) || RefreshUnderWay(s, u, t) {
      var run := SomethingReturns(s', u, t);
      assert Legal(s', run) && NoEntry(run, u, t);
    } else {
      SessionsEnd(s, u, t);
      forall run | Legal(s', run) && NoEntry(run, u, t) ensures Shut(After(s', run), u, t) {
        EndedRun(s', run, u, t);
      }
    }
  }

  /** Revoking the ids leaves none alive, so an uninterrupted deletion is final exactly when no login and
      no refresh of the user is under way. */
  lemma UninterruptedDeletionIff(before: seq<Step>, u: string, t: string)
    requires Legal(Start, before)
    ensures
      var s := After(Start, before);
      var s' := Next(Next(s, KillIssued(u, t)), EndSessions(u));
      (forall run | Legal(s', run) && NoEntry(run, u, t) :: Shut(After(s', run), u, t))
      <==> (!LoginUnderWay(s, u, t) && !RefreshUnderWay(s, u, t))
  {
    var s := After(Start, before);
    OneStep(s, KillIssued(u, t));
    Concat(Start, before, [KillIssued(u, t)]);
    DeletionIsFinalIff(before + [KillIssued(u, t)], u, t);
  }

  lemma {:induction false} Concat(s: State, a: seq<Step>, b: seq<Step>)
    requires Legal(s, a) && Legal(After(s, a), b)
    ensures Legal(s, a + b) && After(s, a + b) == After(After(s, a), b)
    decreases |a|
  {
    if a == [] {
      assert a + b == b;
    } else {
      assert (a + b)[1..] == a[1..] + b;
      Concat(Next(s, a[0]), a[1..], b);
    }
  }

  // ----- A run that shows it -----

  lemma Two(s: State, e: Step, f: Step)
    requires Enabled(s, e) && Enabled(Next(s, e), f)
    ensures Legal(s, [e, f]) && After(s, [e, f]) == Next(Next(s, e), f)
  {
    OneStep(s, e);
    OneStep(Next(s, e), f);
    Concat(s, [e], [f]);
    assert [e] + [f] == [e, f];
  }

  /** The user has logged in and a refresh has read the refresh token. */
  function Reading(t: string, u: string): State {
    State(R.State(map["r" := R.Rec("f", t, u, R.Active, None)], map[0 := R.Checked("r", t, u, "f")],
                  map["f" := ["r"]], map["r" := "f"], map[], map["f" := R.Holder(t, u)]),
          map["a" := Access(t, u, true)], map[], {})
  }

  lemma ReadingIsReached(t: string, u: string) returns (run: seq<Step>)
    ensures Legal(Start, run) && After(Start, run) == Reading(t, u)
  {
    var s1 := Next(Start, Enter(0, t, u));
    var s2 := Next(s1, RecordLogin(0, "a"));
    var s3 := Next(s2, StoreLogin(0, "r", "f"));
    assert s3 == Reading(t, u).(r := Reading(t, u).r.(calls := map[]));
    Two(Start, Enter(0, t, u), RecordLogin(0, "a"));
    OneStep(s2, StoreLogin(0, "r", "f"));
    Two(s3, Refresh(R.Begin(0, "r", t, u)), Refresh(R.Read(0)));
    Concat(s2, [StoreLogin(0, "r", "f")], [Refresh(R.Begin(0, "r", t, u)), Refresh(R.Read(0))]);
    Concat(Start, [Enter(0, t, u), RecordLogin(0, "a")],
      [StoreLogin(0, "r", "f")] + [Refresh(R.Begin(0, "r", t, u)), Refresh(R.Read(0))]);
    run := [Enter(0, t, u), RecordLogin(0, "a")]
           + ([StoreLogin(0, "r", "f")] + [Refresh(R.Begin(0, "r", t, u)), Refresh(R.Read(0))]);
  }

  lemma DeletionMisses(s: State, t: string, u: string)
    requires 0 in s.r.calls && s.r.calls[0].Won? && 0 !in s.recorded && "b" !in s.access
    ensures
      var run := [KillIssued(u, t), RecordRefresh(0, "b")] + [EndSessions(u)];
      Legal(s, run) && "b" in After(s, run).access && After(s, run).access["b"].alive
  {
    Two(s, KillIssued(u, t), RecordRefresh(0, "b"));
    OneStep(Next(Next(s, KillIssued(u, t)), RecordRefresh(0, "b")), EndSessions(u));
    Concat(s, [KillIssued(u, t), RecordRefresh(0, "b")], [EndSessions(u)]);
  }

  /** A refresh wins its compare-and-set before the deletion starts and records its access token in the
      middle of it: that token still works when the deletion is done. */
  lemma TokenSurvives(t: string, u: string)
    ensures exists early: seq<Step> ::
              var run := early + ([KillIssued(u, t), RecordRefresh(0, "b")] + [EndSessions(u)]);
              Legal(Start, run) && "b" in After(Start, run).access && After(Start, run).access["b"].alive
  {
    var s := Reading(t, u);
    var login := ReadingIsReached(t, u);
    var s1 := Next(s, Refresh(R.Cas(0, "q")));
    assert s1.r.calls[0] == R.Won("q", t, u, "f");
    OneStep(s, Refresh(R.Cas(0, "q")));
    Concat(Start, login, [Refresh(R.Cas(0, "q"))]);
    DeletionMisses(s1, t, u);
    var early := login + [Refresh(R.Cas(0, "q"))];
    Concat(Start, early, [KillIssued(u, t), RecordRefresh(0, "b")] + [EndSessions(u)]);
  }
}
