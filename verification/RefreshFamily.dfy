/**
 Refresh-token families (fusion_identity/auth.py `refresh`, `logout`, `change_password`;
 fusion_identity/store.py refresh-token methods).

 A login starts a family with one active token. A refresh marks the presented token rotated by
 compare-and-set, then inserts its successor; presenting a token that is no longer active is
 reuse and revokes the family (section 4.14.2 of RFC 9700). A refresh call awaits between its
 store calls, so several calls interleave; the machine below makes every store call one step.
 */
module RefreshFamily {
  import opened Util

  datatype Status = Active | Rotated | Revoked

  datatype Rec = Rec(family: string, tenant: string, user: string, status: Status, replacedBy: Option<string>)

  type Tokens = map<string, Rec>

  /** Whose tokens a revocation covers: a family (logout, reuse), a user (password change,
      account deletion) or a tenant (tenant deletion). */
  datatype Scope = OfFamily(family: string) | OfUser(user: string) | OfTenant(tenant: string)

  predicate Covers(scope: Scope, r: Rec) {
    match scope
    case OfFamily(f) => r.family == f
    case OfUser(u) => r.user == u
    case OfTenant(t) => r.tenant == t
  }

  function RevokeRec(r: Rec, scope: Scope): Rec {
    if Covers(scope, r) then r.(status := Revoked) else r
  }

  function Revoke(toks: Tokens, scope: Scope): Tokens {
    map j | j in toks :: RevokeRec(toks[j], scope)
  }

  /** The tokens a revocation changes. */
  function Hit(toks: Tokens, scope: Scope): set<string> {
    set j | j in toks && Covers(scope, toks[j]) && toks[j].status != Revoked
  }

  /** Compare-and-set: only an active token rotates. */
  function Rotate(toks: Tokens, old_: string, new_: string): Tokens {
    if old_ in toks && toks[old_].status == Active
    then toks[old_ := toks[old_].(status := Rotated, replacedBy := Some(new_))] else toks
  }

  predicate CanRotate(toks: Tokens, jti: string) {
    jti in toks && toks[jti].status == Active
  }

  datatype Outcome = Unknown | RevokedToken | Reuse | Denied | Issued(jti: string)

  /** A refresh call that nothing interrupts. */
  function Refreshed(toks: Tokens, jti: string, tenant: string, user: string, admitted: bool, new_: string): Tokens {
    if jti !in toks || toks[jti].status == Revoked then toks
    else if toks[jti].status == Rotated then Revoke(toks, OfFamily(toks[jti].family))
    else if !admitted then toks
    else Rotate(toks, jti, new_)[new_ := Rec(toks[jti].family, tenant, user, Active, None)]
  }

  function RefreshOutcome(toks: Tokens, jti: string, admitted: bool, new_: string): Outcome {
    if jti !in toks then Unknown
    else match toks[jti].status
      case Revoked => RevokedToken
      case Rotated => Reuse
      case Active => if admitted then Issued(new_) else Denied
  }

  /** The refresh-token part of the in-memory store, and the handler over it. */
  class RefreshStore {
    var tokens: Tokens

    constructor ()
      ensures tokens == map[]
    {
      tokens := map[];
    }

    method InsertRefreshToken(jti: string, family: string, tenant: string, user: string)
      modifies this
      ensures tokens == old(tokens)[jti := Rec(family, tenant, user, Active, None)]
    {
      tokens := tokens[jti := Rec(family, tenant, user, Active, None)];
    }

    method RotateRefreshToken(oldJti: string, newJti: string) returns (ok: bool)
      modifies this
      ensures tokens == Rotate(old(tokens), oldJti, newJti)
      ensures ok == CanRotate(old(tokens), oldJti)
    {
      if oldJti !in tokens || tokens[oldJti].status != Active {
        return false;
      }
      tokens := tokens[oldJti := tokens[oldJti].(status := Rotated, replacedBy := Some(newJti))];
      return true;
    }

    /** revoke_refresh_family and revoke_user_sessions: one pass over the records. */
    method RevokeTokens(scope: Scope) returns (count: nat)
      modifies this
      ensures tokens == Revoke(old(tokens), scope)
      ensures count == |Hit(old(tokens), scope)|
    {
      var before := tokens;
      var todo := tokens.Keys;
      var hit: set<string> := {};
      count := 0;
      while todo != {}
        invariant todo <= before.Keys == tokens.Keys
        invariant forall j :: j in before && j !in todo ==> tokens[j] == RevokeRec(before[j], scope)
        invariant forall j :: j in todo ==> tokens[j] == before[j]
        invariant forall j ::
                    j in hit <==> j in before && j !in todo && Covers(scope, before[j]) && before[j].status != Revoked
        invariant count == |hit|
        decreases todo
      {
        var j :| j in todo;
        if Covers(scope, tokens[j]) && tokens[j].status != Revoked {
          tokens := tokens[j := tokens[j].(status := Revoked)];
          assert j !in hit;
          hit := hit + {j};
          count := count + 1;
        }
        todo := todo - {j};
      }
      assert hit == Hit(before, scope);
    }

    /** The refresh handler without interruption. `admitted` is the verdict of the tenant, user
        and membership checks, `newJti` the fresh id of the successor. */
    method Refresh(jti: string, tenant: string, user: string, admitted: bool, newJti: string) returns (o: Outcome)
      modifies this
      ensures tokens == Refreshed(old(tokens), jti, tenant, user, admitted, newJti)
      ensures o == RefreshOutcome(old(tokens), jti, admitted, newJti)
    {
      if jti !in tokens {
        return Unknown;
      }
      var rt := tokens[jti];
      if rt.status == Revoked {
        return RevokedToken;
      }
      if rt.status == Rotated {
        var n := RevokeTokens(OfFamily(rt.family));
        return Reuse;
      }
      if !admitted {
        return Denied;
      }
      var ok := RotateRefreshToken(jti, newJti);
      if !ok {
        // the compare-and-set loses only when another call comes in between
        assert false;
      }
      InsertRefreshToken(newJti, rt.family, tenant, user);
      return Issued(newJti);
    }
  }

  /** A revocation revokes every token of the family, the user or the tenant, changes nothing else about it,
      and leaves all others alone. */
  lemma RevokesExactly(toks: Tokens, scope: Scope, j: string)
    requires j in toks
    ensures
      var r := toks[j];
      var meant := match scope
        case OfFamily(f) => r.family == f
        case OfUser(u) => r.user == u
        case OfTenant(t) => r.tenant == t;
      && Revoke(toks, scope).Keys == toks.Keys
      && Revoke(toks, scope)[j] == (if meant then Rec(r.family, r.tenant, r.user, Revoked, r.replacedBy) else r)
      && (j in Hit(toks, scope) <==> meant && r.status != Revoked)
  {
  }

  // ----- The interleaved machine -----

  type Chains = map<string, seq<string>>
  type Calls = map<nat, Call>

  /** A refresh call between two of its store calls. */
  datatype Call =
    | Started(jti: string, tenant: string, user: string)
    | Checked(jti: string, tenant: string, user: string, family: string)
    | Reused(family: string)
    | Won(jti: string, tenant: string, user: string, family: string)
    | Finished

  /** For whom a family was started. */
  datatype Holder = Holder(tenant: string, user: string)

  /** Beside the store and the calls, what the run has done so far: `chains` holds the ids minted
      for each family in order, `owner` the family of each id, `pending` the call that holds the
      end of a family's chain until it is stored, and `holders` whose family it is. */
  datatype State = State(tokens: Tokens, calls: Calls, chains: Chains, owner: map<string, string>,
                         pending: map<string, nat>, holders: map<string, Holder>)

  const Start := State(map[], map[], map[], map[], map[], map[])

  datatype Step =
    | Login(jti: string, family: string, tenant: string, user: string)
    | Begin(p: nat, jti: string, tenant: string, user: string)
    | Read(p: nat)
    | Refuse(p: nat)
    | Cas(p: nat, jti: string)
    | Insert(p: nat)
    | RevokeReused(p: nat)
    | RevokeAll(scope: Scope)

  /** A token is signed with the tenant and user its record is stored with. */
  predicate Signed(toks: Tokens, jti: string, tenant: string, user: string) {
    jti in toks ==> toks[jti].tenant == tenant && toks[jti].user == user
  }

  predicate Enabled(s: State, e: Step) {
    match e
    case Login(jti, family, _, _) => jti !in s.owner && family !in s.chains
    case Begin(p, _, _, _) => p !in s.calls
    case Read(p) =>
      p in s.calls && s.calls[p].Started? && Signed(s.tokens, s.calls[p].jti, s.calls[p].tenant, s.calls[p].user)
    case Refuse(p) => p in s.calls && s.calls[p].Checked?
    case Cas(p, jti) => p in s.calls && s.calls[p].Checked? && jti !in s.owner
    case Insert(p) => p in s.calls && s.calls[p].Won?
    case RevokeReused(p) => p in s.calls && s.calls[p].Reused?
    case RevokeAll(_) => true
  }

  function ReadCall(toks: Tokens, c: Call): Call
    requires c.Started?
  {
    if c.jti !in toks then Finished
    else match toks[c.jti].status
      case Revoked => Finished
      case Rotated => Reused(toks[c.jti].family)
      case Active => Checked(c.jti, c.tenant, c.user, toks[c.jti].family)
  }

  function Next(s: State, e: Step): State
    requires Enabled(s, e)
  {
    match e
    case Login(jti, family, tenant, user) =>
      s.(tokens := s.tokens[jti := Rec(family, tenant, user, Active, None)],
         chains := s.chains[family := [jti]], owner := s.owner[jti := family],
         holders := s.holders[family := Holder(tenant, user)])
    case Begin(p, jti, tenant, user) => s.(calls := s.calls[p := Started(jti, tenant, user)])
    case Read(p) => s.(calls := s.calls[p := ReadCall(s.tokens, s.calls[p])])
    case Refuse(p) => s.(calls := s.calls[p := Finished])
    case Cas(p, jti) =>
      var c := s.calls[p];
      if CanRotate(s.tokens, c.jti) then
        var f := c.family;
        State(Rotate(s.tokens, c.jti, jti), s.calls[p := Won(jti, c.tenant, c.user, f)],
              s.chains[f := (if f in s.chains then s.chains[f] else []) + [jti]], s.owner[jti := f],
              s.pending[f := p], s.holders)
      else s.(calls := s.calls[p := Reused(c.family)])
    case Insert(p) =>
      var c := s.calls[p];
      s.(tokens := s.tokens[c.jti := Rec(c.family, c.tenant, c.user, Active, None)], calls := s.calls[p := Finished],
         pending := s.pending - {c.family})
    case RevokeReused(p) =>
      s.(tokens := Revoke(s.tokens, OfFamily(s.calls[p].family)), calls := s.calls[p := Finished])
    case RevokeAll(scope) => s.(tokens := Revoke(s.tokens, scope))
  }

  predicate Legal(s: State, run: seq<Step>)
    decreases |run|
  {
    if run == [] then true else Enabled(s, run[0]) && Legal(Next(s, run[0]), run[1..])
  }

  function After(s: State, run: seq<Step>): State
    requires Legal(s, run)
    decreases |run|
  {
    if run == [] then s else After(Next(s, run[0]), run[1..])
  }

  // ----- What every step keeps -----

  predicate Distinct(c: seq<string>) {
    forall i, j :: 0 <= i < j < |c| ==> c[i] != c[j]
  }

  function End(c: seq<string>): string {
    if c == [] then "" else Last(c)
  }

  predicate Owned(c: seq<string>, f: string, owner: map<string, string>) {
    forall j :: j in c ==> j in owner && owner[j] == f
  }

  /** Every minted id belongs to one family, and to one place in it. */
  predicate ChainsOk(chains: Chains, owner: map<string, string>) {
    forall f :: f in chains ==> chains[f] != [] && Distinct(chains[f]) && Owned(chains[f], f, owner)
  }

  /** Every stored token is in the chain of its family. */
  predicate Stored(toks: Tokens, chains: Chains) {
    forall j :: j in toks ==> toks[j].family in chains && j in chains[toks[j].family]
  }

  predicate LinkAt(toks: Tokens, f: string, c: seq<string>, i: int) {
    0 <= i < |c| - 1 ==>
      && c[i] in toks && toks[c[i]].family == f && toks[c[i]].status != Active
      && toks[c[i]].replacedBy == Some(c[i + 1])
  }

  /** All but the last of a chain are stored, no longer active, and point to the next one. */
  ghost predicate LinkedChain(toks: Tokens, f: string, c: seq<string>) {
    forall i :: LinkAt(toks, f, c, i)
  }

  ghost predicate Linked(toks: Tokens, chains: Chains) {
    forall f :: f in chains ==> LinkedChain(toks, f, chains[f])
  }

  /** The last of a chain is stored unless a call holds it, and points nowhere. */
  predicate Tails(toks: Tokens, chains: Chains, pending: map<string, nat>) {
    forall f :: f in chains && f !in pending ==>
      && End(chains[f]) in toks
      && toks[End(chains[f])].family == f && toks[End(chains[f])].replacedBy == None
        && toks[End(chains[f])].status != Rotated
  }

  predicate PendingOk(toks: Tokens, chains: Chains, calls: Calls, pending: map<string, nat>) {
    forall f :: f in pending ==>
      && f in chains && pending[f] in calls
      && calls[pending[f]].Won? && calls[pending[f]].family == f
      && calls[pending[f]].jti == End(chains[f]) && End(chains[f]) !in toks
  }

  predicate CallOk(toks: Tokens, chains: Chains, pending: map<string, nat>, p: nat, c: Call) {
    && (c.Won? ==> c.family in pending && pending[c.family] == p)
    && (c.Checked? ==> c.jti in toks && toks[c.jti].family == c.family)
    && (c.Reused? ==> c.family in chains)
  }

  predicate CallsOk(toks: Tokens, chains: Chains, calls: Calls, pending: map<string, nat>) {
    forall p :: p in calls ==> CallOk(toks, chains, pending, p, calls[p])
  }

  ghost predicate Inv(s: State) {
    && ChainsOk(s.chains, s.owner) && Stored(s.tokens, s.chains) && Linked(s.tokens, s.chains)
    && Tails(s.tokens, s.chains, s.pending) && PendingOk(s.tokens, s.chains, s.calls, s.pending)
    && CallsOk(s.tokens, s.chains, s.calls, s.pending)
  }

  /** A store that only turned some statuses keeps the links. */
  lemma LinkedStill(toks: Tokens, toks': Tokens, chains: Chains)
    requires Linked(toks, chains)
    requires forall j :: j in toks ==>
               j in toks' && toks'[j].family == toks[j].family && toks'[j].replacedBy == toks[j].replacedBy
               && (toks[j].status != Active ==> toks'[j].status != Active)
    ensures Linked(toks', chains)
  {
    forall f | f in chains ensures LinkedChain(toks', f, chains[f]) {
      forall i ensures LinkAt(toks', f, chains[f], i) {
        assert LinkAt(toks, f, chains[f], i);
      }
    }
  }

  lemma LoginChains(s: State, j: string, f: string, r: Rec)
    requires Linked(s.tokens, s.chains) && ChainsOk(s.chains, s.owner) && f !in s.chains
    requires j !in s.tokens && j !in s.owner
    ensures Linked(s.tokens[j := r], s.chains[f := [j]]) && ChainsOk(s.chains[f := [j]], s.owner[j := f])
  {
    LinkedStill(s.tokens, s.tokens[j := r], s.chains);
    assert Distinct([j]);
  }

  /** A new token of a family that has none, under an id no chain has. */
  lemma LoginTokens(s: State, j: string, f: string, r: Rec)
    requires Stored(s.tokens, s.chains) && Tails(s.tokens, s.chains, s.pending) && f !in s.chains && f !in s.pending
    requires j !in s.tokens && r.family == f && r.replacedBy == None && r.status == Active
    ensures Stored(s.tokens[j := r], s.chains[f := [j]]) && Tails(s.tokens[j := r], s.chains[f := [j]], s.pending)
  {
    assert End([j]) == j;
  }

  lemma LoginCalls(s: State, j: string, f: string, r: Rec)
    requires CallsOk(s.tokens, s.chains, s.calls, s.pending) && PendingOk(s.tokens, s.chains, s.calls, s.pending)
    requires ChainsOk(s.chains, s.owner) && j !in s.owner && j !in s.tokens && f !in s.chains
    ensures CallsOk(s.tokens[j := r], s.chains[f := [j]], s.calls, s.pending)
    ensures PendingOk(s.tokens[j := r], s.chains[f := [j]], s.calls, s.pending)
  {
    forall g | g in s.pending ensures End(s.chains[g]) != j {
      assert End(s.chains[g]) in s.chains[g];
    }
  }

  lemma LoginKeeps(s: State, e: Step)
    requires Inv(s) && e.Login? && Enabled(s, e)
    ensures Inv(Next(s, e))
  {
    assert e.jti !in s.tokens;
    var r := Rec(e.family, e.tenant, e.user, Active, None);
    LoginChains(s, e.jti, e.family, r);
    LoginTokens(s, e.jti, e.family, r);
    LoginCalls(s, e.jti, e.family, r);
  }

  lemma QuietKeeps(s: State, e: Step)
    requires Inv(s) && Enabled(s, e)
    requires e.Begin? || e.Read? || e.Refuse? || (e.Cas? && !CanRotate(s.tokens, s.calls[e.p].jti))
    ensures Inv(Next(s, e))
  {
  }

  lemma RevokeTails(toks: Tokens, chains: Chains, pending: map<string, nat>, scope: Scope)
    requires Tails(toks, chains, pending)
    ensures Tails(Revoke(toks, scope), chains, pending)
  {
  }

  lemma RevokeStored(toks: Tokens, chains: Chains, scope: Scope)
    requires Stored(toks, chains)
    ensures Stored(Revoke(toks, scope), chains)
  {
  }

  lemma RevokeCalls(toks: Tokens, chains: Chains, calls: Calls, pending: map<string, nat>, scope: Scope)
    requires CallsOk(toks, chains, calls, pending) && PendingOk(toks, chains, calls, pending)
    ensures CallsOk(Revoke(toks, scope), chains, calls, pending)
            && PendingOk(Revoke(toks, scope), chains, calls, pending)
  {
    assert Revoke(toks, scope).Keys == toks.Keys;
  }

  lemma RevokeLinks(toks: Tokens, chains: Chains, scope: Scope)
    requires Linked(toks, chains)
    ensures Linked(Revoke(toks, scope), chains)
  {
    LinkedStill(toks, Revoke(toks, scope), chains);
  }

  lemma RevokeKeeps(s: State, scope: Scope)
    requires Inv(s)
    ensures Inv(s.(tokens := Revoke(s.tokens, scope)))
  {
    RevokeLinks(s.tokens, s.chains, scope);
    RevokeTails(s.tokens, s.chains, s.pending, scope);
    RevokeStored(s.tokens, s.chains, scope);
    RevokeCalls(s.tokens, s.chains, s.calls, s.pending, scope);
  }

  lemma RevokeReusedKeeps(s: State, e: Step)
    requires Inv(s) && e.RevokeReused? && Enabled(s, e)
    ensures Inv(Next(s, e))
  {
    RevokeKeeps(s, OfFamily(s.calls[e.p].family));
  }

  /** The token a call rotates is the end of its family's chain. */
  lemma ActiveIsEnd(s: State, j: string)
    requires Inv(s) && j in s.tokens && s.tokens[j].status == Active
    ensures s.tokens[j].family in s.chains && s.tokens[j].family !in s.pending
    ensures End(s.chains[s.tokens[j].family]) == j
  {
    var f := s.tokens[j].family;
    var c := s.chains[f];
    var i :| 0 <= i < |c| && c[i] == j;
    assert LinkAt(s.tokens, f, c, i);
  }

  lemma ExtendChain(s: State, f: string, j: string, k: string, toks: Tokens)
    requires Inv(s) && f in s.chains && End(s.chains[f]) == j && j in s.tokens && s.tokens[j].family == f
    requires k !in s.owner
    requires toks == s.tokens[j := s.tokens[j].(status := Rotated, replacedBy := Some(k))]
    ensures LinkedChain(toks, f, s.chains[f] + [k])
    ensures Distinct(s.chains[f] + [k]) && Owned(s.chains[f] + [k], f, s.owner[k := f])
  {
    var c := s.chains[f];
    assert k !in c;
    assert Distinct(c);
    forall i ensures LinkAt(toks, f, c + [k], i) {
      assert LinkAt(s.tokens, f, c, i);
    }
  }

  lemma OtherChains(s: State, f: string, j: string, toks: Tokens, g: string)
    requires Inv(s) && g in s.chains && g != f && j in s.tokens && s.tokens[j].family == f
    requires forall k :: k in s.tokens && k != j ==> k in toks && toks[k] == s.tokens[k]
    ensures LinkedChain(toks, g, s.chains[g])
  {
    forall i ensures LinkAt(toks, g, s.chains[g], i) {
      assert LinkAt(s.tokens, g, s.chains[g], i);
    }
  }

  lemma WonLinks(s: State, e: Step)
    requires Inv(s) && e.Cas? && Enabled(s, e) && CanRotate(s.tokens, s.calls[e.p].jti)
    ensures Linked(Next(s, e).tokens, Next(s, e).chains) && ChainsOk(Next(s, e).chains, Next(s, e).owner)
  {
    var s' := Next(s, e);
    var c := s.calls[e.p];
    ActiveIsEnd(s, c.jti);
    ExtendChain(s, c.family, c.jti, e.jti, s'.tokens);
    forall g | g in s'.chains && g != c.family ensures LinkedChain(s'.tokens, g, s'.chains[g]) {
      OtherChains(s, c.family, c.jti, s'.tokens, g);
    }
  }

  lemma WonTokens(s: State, p: nat, f: string, j: string, k: string, toks: Tokens)
    requires Stored(s.tokens, s.chains) && Tails(s.tokens, s.chains, s.pending) && f in s.chains
    requires j in s.tokens && s.tokens[j].family == f && k !in s.tokens
    requires toks == s.tokens[j := s.tokens[j].(status := Rotated, replacedBy := Some(k))]
    ensures Stored(toks, s.chains[f := s.chains[f] + [k]])
    ensures Tails(toks, s.chains[f := s.chains[f] + [k]], s.pending[f := p])
  {
  }

  lemma WonCalls(s: State, p: nat, c: Call, k: string, toks: Tokens)
    requires CallsOk(s.tokens, s.chains, s.calls, s.pending) && PendingOk(s.tokens, s.chains, s.calls, s.pending)
    requires c.Won? && c.jti == k && k !in s.tokens && p in s.calls && s.calls[p].Checked?
    requires c.family in s.chains && c.family !in s.pending
    requires toks.Keys == s.tokens.Keys && forall i :: i in toks ==> toks[i].family == s.tokens[i].family
    ensures CallsOk(toks, s.chains[c.family := s.chains[c.family] + [k]], s.calls[p := c], s.pending[c.family := p])
    ensures PendingOk(toks, s.chains[c.family := s.chains[c.family] + [k]], s.calls[p := c], s.pending[c.family := p])
  {
  }

  lemma WonKeeps(s: State, e: Step)
    requires Inv(s) && e.Cas? && Enabled(s, e) && CanRotate(s.tokens, s.calls[e.p].jti)
    ensures Inv(Next(s, e))
  {
    var c := s.calls[e.p];
    var toks := Rotate(s.tokens, c.jti, e.jti);
    ActiveIsEnd(s, c.jti);
    assert e.jti !in s.tokens;
    WonLinks(s, e);
    WonTokens(s, e.p, c.family, c.jti, e.jti, toks);
    WonCalls(s, e.p, Won(e.jti, c.tenant, c.user, c.family), e.jti, toks);
  }

  lemma InsertTokens(s: State, c: Call, r: Rec)
    requires Linked(s.tokens, s.chains) && Stored(s.tokens, s.chains) && Tails(s.tokens, s.chains, s.pending)
    requires c.Won? && c.family in s.chains && c.jti == End(s.chains[c.family]) && c.jti in s.chains[c.family]
             && c.jti !in s.tokens
    requires r.family == c.family && r.replacedBy == None && r.status == Active
    ensures Linked(s.tokens[c.jti := r], s.chains) && Stored(s.tokens[c.jti := r], s.chains)
    ensures Tails(s.tokens[c.jti := r], s.chains, s.pending - {c.family})
  {
    LinkedStill(s.tokens, s.tokens[c.jti := r], s.chains);
  }

  lemma InsertKeeps(s: State, e: Step)
    requires Inv(s) && e.Insert? && Enabled(s, e)
    ensures Inv(Next(s, e))
  {
    var c := s.calls[e.p];
    assert c.jti in s.chains[c.family];
    InsertTokens(s, c, Rec(c.family, c.tenant, c.user, Active, None));
    InsertCalls(s, e.p, Rec(c.family, c.tenant, c.user, Active, None));
  }

  lemma InsertCalls(s: State, p: nat, r: Rec)
    requires ChainsOk(s.chains, s.owner) && PendingOk(s.tokens, s.chains, s.calls, s.pending)
    requires CallsOk(s.tokens, s.chains, s.calls, s.pending) && p in s.calls && s.calls[p].Won?
             && s.calls[p].jti !in s.tokens
    ensures
      var c := s.calls[p];
      && PendingOk(s.tokens[c.jti := r], s.chains, s.calls[p := Finished], s.pending - {c.family})
      && CallsOk(s.tokens[c.jti := r], s.chains, s.calls[p := Finished], s.pending - {c.family})
  {
    var c := s.calls[p];
    forall g | g in s.pending && g != c.family ensures End(s.chains[g]) != c.jti {
      assert End(s.chains[g]) in s.chains[g] && c.jti in s.chains[c.family];
    }
  }

  lemma StepKeeps(s: State, e: Step)
    requires Inv(s) && Enabled(s, e)
    ensures Inv(Next(s, e))
  {
    match e
    case Login(_, _, _, _) => LoginKeeps(s, e);
    case Begin(_, _, _, _) => QuietKeeps(s, e);
    case Read(_) => QuietKeeps(s, e);
    case Refuse(_) => QuietKeeps(s, e);
    case Cas(p, _) => if CanRotate(s.tokens, s.calls[p].jti) { WonKeeps(s, e); } else { QuietKeeps(s, e); }
    case Insert(_) => InsertKeeps(s, e);
    case RevokeReused(_) => RevokeReusedKeeps(s, e);
    case RevokeAll(scope) => RevokeKeeps(s, scope);
  }

  lemma {:induction false} RunKeeps(s: State, run: seq<Step>)
    requires Inv(s) && Legal(s, run)
    ensures Inv(After(s, run))
    decreases |run|
  {
    if run != [] {
      StepKeeps(s, run[0]);
      RunKeeps(Next(s, run[0]), run[1..]);
    }
  }

  // ----- Families under every interleaving -----

  function ActiveIn(s: State, f: string): set<string> {
    set j | j in s.tokens && s.tokens[j].family == f && s.tokens[j].status == Active
  }

  /** Calls that won the compare-and-set and have not stored the successor yet. */
  function InFlight(s: State, f: string): set<nat> {
    set p | p in s.calls && s.calls[p].Won? && s.calls[p].family == f
  }

  lemma {:induction false} ReachableInv(run: seq<Step>)
    requires Legal(Start, run)
    ensures Inv(After(Start, run))
  {
    RunKeeps(Start, run);
  }

  lemma AtMostOne(s: State, f: string)
    requires Inv(s)
    ensures |ActiveIn(s, f)| + |InFlight(s, f)| <= 1
  {
    if f in s.pending {
      forall j | j in ActiveIn(s, f) ensures false { ActiveIsEnd(s, j); }
      assert ActiveIn(s, f) == {};
      assert InFlight(s, f) <= {s.pending[f]};
      SubsetOfOne(InFlight(s, f), s.pending[f]);
    } else {
      assert InFlight(s, f) == {};
      var e := if f in s.chains then End(s.chains[f]) else "";
      forall j | j in ActiveIn(s, f) ensures j == e { ActiveIsEnd(s, j); }
      SubsetOfOne(ActiveIn(s, f), e);
    }
  }

  lemma SubsetOfOne<T>(s: set<T>, x: T)
    requires forall y :: y in s ==> y == x
    ensures |s| <= 1
  {
    if x in s { assert s == {x}; } else { assert s == {}; }
  }

  /** In every state of every interleaving: a family has at most one active token or pending
      rotation, and its `replacedBy` links run once through all its tokens, from the login token
      to the newest, with no id twice; the newest is missing only while a rotation is pending. */
  lemma FamilyIsOneChain(run: seq<Step>, f: string)
    requires Legal(Start, run)
    ensures var s := After(Start, run);
            && |ActiveIn(s, f)| + |InFlight(s, f)| <= 1
            && (f in s.chains ==>
                  var c := s.chains[f];
                  && c != [] && Distinct(c)
                  && (forall i :: 0 <= i < |c| - 1 ==> c[i] in s.tokens && s.tokens[c[i]].replacedBy == Some(c[i + 1]))
                  && (set j | j in s.tokens && s.tokens[j].family == f) ==
                    (set j | j in c) - (if InFlight(s, f) == {} then {} else {End(c)})
                  && (End(c) in s.tokens ==> s.tokens[End(c)].replacedBy == None))
  {
    var s := After(Start, run);
    ReachableInv(run);
    AtMostOne(s, f);
    if f in s.chains {
      ChainCoversFamily(s, f);
      forall i | 0 <= i < |s.chains[f]| - 1
        ensures s.chains[f][i] in s.tokens && s.tokens[s.chains[f][i]].replacedBy == Some(s.chains[f][i + 1])
      {
        assert LinkAt(s.tokens, f, s.chains[f], i);
      }
    }
  }

  lemma ChainCoversFamily(s: State, f: string)
    requires Inv(s) && f in s.chains
    ensures (set j | j in s.tokens && s.tokens[j].family == f)
              == (set j | j in s.chains[f]) - (if InFlight(s, f) == {} then {} else {End(s.chains[f])})
  {
    var c := s.chains[f];
    if f in s.pending { assert s.pending[f] in InFlight(s, f); }
    if InFlight(s, f) != {} {
      var p :| p in InFlight(s, f);
      assert f in s.pending;
    }
    forall j | j in c && (f !in s.pending || j != End(c)) ensures j in s.tokens && s.tokens[j].family == f {
      var i :| 0 <= i < |c| && c[i] == j;
      assert LinkAt(s.tokens, f, c, i);
    }
  }

  // ----- Statuses over whole runs -----

  function Rank(st: Status): nat {
    match st case Active => 0 case Rotated => 1 case Revoked => 2
  }

  /** What time does to the store: tokens stay, keep family, user and tenant, move only from
      active to rotated to revoked, and keep the successor they were given. */
  predicate Later(a: Tokens, b: Tokens) {
    forall j :: j in a ==>
      && j in b && b[j].family == a[j].family && b[j].user == a[j].user && b[j].tenant == a[j].tenant
      && Rank(a[j].status) <= Rank(b[j].status)
      && (a[j].status != Active ==> b[j].replacedBy == a[j].replacedBy)
  }

  lemma NewIdsUnused(s: State, e: Step)
    requires Inv(s) && Enabled(s, e)
    ensures e.Login? ==> e.jti !in s.tokens
    ensures e.Insert? ==> s.calls[e.p].jti !in s.tokens
  {
  }

  lemma TokensLater(s: State, e: Step)
    requires Enabled(s, e)
    requires e.Login? ==> e.jti !in s.tokens
    requires e.Insert? ==> s.calls[e.p].jti !in s.tokens
    ensures Later(s.tokens, Next(s, e).tokens)
  {
  }

  lemma StepLater(s: State, e: Step)
    requires Inv(s) && Enabled(s, e)
    ensures Later(s.tokens, Next(s, e).tokens)
  {
    NewIdsUnused(s, e);
    TokensLater(s, e);
  }

  lemma {:induction false} RunLater(s: State, run: seq<Step>)
    requires Inv(s) && Legal(s, run)
    ensures Later(s.tokens, After(s, run).tokens)
    decreases |run|
  {
    if run != [] {
      StepLater(s, run[0]);
      StepKeeps(s, run[0]);
      RunLater(Next(s, run[0]), run[1..]);
    }
  }

  predicate Wins(s: State, e: Step, jti: string)
    requires Enabled(s, e)
  {
    e.Cas? && s.calls[e.p].jti == jti && CanRotate(s.tokens, jti)
  }

  /** How often a run hands out a successor for one refresh token. */
  function Successes(s: State, run: seq<Step>, jti: string): nat
    requires Legal(s, run)
    decreases |run|
  {
    if run == [] then 0 else
      (if Wins(s, run[0], jti) then 1 else 0) + Successes(Next(s, run[0]), run[1..], jti)
  }

  lemma {:induction false} SpentStaysSpent(s: State, run: seq<Step>, jti: string)
    requires Inv(s) && Legal(s, run) && jti in s.tokens && s.tokens[jti].status != Active
    ensures Successes(s, run, jti) == 0
    decreases |run|
  {
    if run != [] {
      StepKeeps(s, run[0]);
      StepLater(s, run[0]);
      SpentStaysSpent(Next(s, run[0]), run[1..], jti);
    }
  }

  /** Whatever interleaves, one refresh token is exchanged at most once. */
  lemma {:induction false} ExchangedOnce(s: State, run: seq<Step>, jti: string)
    requires Inv(s) && Legal(s, run)
    ensures Successes(s, run, jti) <= 1
    decreases |run|
  {
    if run != [] {
      StepKeeps(s, run[0]);
      if Wins(s, run[0], jti) {
        assert Next(s, run[0]).tokens[jti].status == Rotated;
        SpentStaysSpent(Next(s, run[0]), run[1..], jti);
      } else {
        ExchangedOnce(Next(s, run[0]), run[1..], jti);
      }
    }
  }

  // ----- Reuse -----

  /** No active token and none on its way. */
  predicate Dead(s: State, f: string) {
    && f in s.chains
    && (forall j :: j in s.tokens && s.tokens[j].family == f ==> s.tokens[j].status != Active)
    && (forall p :: p in s.calls && s.calls[p].Won? ==> s.calls[p].family != f)
  }

  lemma DeadStep(s: State, e: Step, f: string)
    requires CallsOk(s.tokens, s.chains, s.calls, s.pending) && Dead(s, f) && Enabled(s, e)
    ensures Dead(Next(s, e), f)
  {
  }

  lemma {:induction false} DeadRun(s: State, run: seq<Step>, f: string)
    requires Inv(s) && Dead(s, f) && Legal(s, run)
    ensures Dead(After(s, run), f)
    decreases |run|
  {
    if run != [] {
      StepKeeps(s, run[0]);
      DeadStep(s, run[0], f);
      DeadRun(Next(s, run[0]), run[1..], f);
    }
  }

  /** Revoking a family on reuse is final in every continuation exactly when no rotation of that
      family was between its compare-and-set and its insert. */
  lemma ReuseIsFinalIff(s: State, p: nat, f: string)
    requires Inv(s) && p in s.calls && s.calls[p] == Reused(f)
    ensures (forall run | Legal(Next(s, RevokeReused(p)), run) ::
               ActiveIn(After(Next(s, RevokeReused(p)), run), f) == {})
            <==> InFlight(s, f) == {}
  {
    var s1 := Next(s, RevokeReused(p));
    RevokeReusedKeeps(s, RevokeReused(p));
    if InFlight(s, f) == {} {
      forall q | q in s1.calls && s1.calls[q].Won? ensures s1.calls[q].family != f {
        assert q !in InFlight(s, f);
      }
      assert Dead(s1, f);
      forall run | Legal(s1, run) ensures ActiveIn(After(s1, run), f) == {} {
        DeadRun(s1, run, f);
      }
    } else {
      var q :| q in InFlight(s, f);
      OneStep(s1, Insert(q));
      assert s.calls[q].jti in ActiveIn(After(s1, [Insert(q)]), f);
    }
  }

  // ----- Revocations -----

  predicate TokensHeld(toks: Tokens, holders: map<string, Holder>) {
    forall j :: j in toks ==>
      toks[j].family in holders && holders[toks[j].family] == Holder(toks[j].tenant, toks[j].user)
  }

  predicate CallsHeld(calls: Calls, holders: map<string, Holder>) {
    forall p :: p in calls && (calls[p].Checked? || calls[p].Won?) ==>
      calls[p].family in holders && holders[calls[p].family] == Holder(calls[p].tenant, calls[p].user)
  }

  /** Records, calls and families agree on whose they are. */
  predicate HoldersOk(s: State) {
    s.holders.Keys == s.chains.Keys && TokensHeld(s.tokens, s.holders) && CallsHeld(s.calls, s.holders)
  }

  lemma TokensHeldStep(s: State, e: Step)
    requires HoldersOk(s) && Enabled(s, e)
    ensures TokensHeld(Next(s, e).tokens, Next(s, e).holders)
  {
  }

  lemma CallsHeldStep(s: State, e: Step)
    requires HoldersOk(s) && Enabled(s, e)
    ensures CallsHeld(Next(s, e).calls, Next(s, e).holders)
  {
  }

  lemma HoldersStep(s: State, e: Step)
    requires HoldersOk(s) && Enabled(s, e)
    ensures HoldersOk(Next(s, e))
  {
    TokensHeldStep(s, e);
    CallsHeldStep(s, e);
  }

  lemma {:induction false} HoldersRun(s: State, run: seq<Step>)
    requires HoldersOk(s) && Legal(s, run)
    ensures HoldersOk(After(s, run))
    decreases |run|
  {
    if run != [] {
      HoldersStep(s, run[0]);
      HoldersRun(Next(s, run[0]), run[1..]);
    }
  }

  /** The families a revocation is meant for: all that exist by then and are its family's, its
      user's or its tenant's. */
  predicate Meant(s: State, scope: Scope, f: string) {
    f in s.chains && f in s.holders && Covers(scope, Rec(f, s.holders[f].tenant, s.holders[f].user, Active, None))
  }

  /** A rotation of such a family is between its compare-and-set and its insert. */
  predicate Slips(s: State, scope: Scope) {
    exists p :: p in s.calls && s.calls[p].Won? && Meant(s, scope, s.calls[p].family)
  }

  ghost predicate NeverActive(s: State, scope: Scope, run: seq<Step>)
    requires Legal(Next(s, RevokeAll(scope)), run)
  {
    forall f :: Meant(s, scope, f) ==> ActiveIn(After(Next(s, RevokeAll(scope)), run), f) == {}
  }

  lemma RevokedIsDead(s: State, scope: Scope, f: string)
    requires HoldersOk(s) && Meant(s, scope, f) && !Slips(s, scope)
    ensures Dead(Next(s, RevokeAll(scope)), f)
  {
  }

  /** A logout, password change, account deletion or tenant deletion is final, in every continuation
      and for every family it is meant for, exactly when no rotation of such a family was between its
      compare-and-set and its insert. */
  lemma RevocationIsFinalIff(s: State, scope: Scope)
    requires Inv(s) && HoldersOk(s)
    ensures (forall run | Legal(Next(s, RevokeAll(scope)), run) :: NeverActive(s, scope, run)) <==> !Slips(s, scope)
  {
    var s1 := Next(s, RevokeAll(scope));
    RevokeKeeps(s, scope);
    if Slips(s, scope) {
      var p :| p in s.calls && s.calls[p].Won? && Meant(s, scope, s.calls[p].family);
      OneStep(s1, Insert(p));
      assert s.calls[p].jti in ActiveIn(After(s1, [Insert(p)]), s.calls[p].family);
      assert !NeverActive(s, scope, [Insert(p)]);
    } else {
      forall run | Legal(s1, run) ensures NeverActive(s, scope, run) {
        forall f | Meant(s, scope, f) ensures ActiveIn(After(s1, run), f) == {} {
          RevokedIsDead(s, scope, f);
          DeadRun(s1, run, f);
        }
      }
    }
  }

  /** In every reachable state with no call in between: after the revocation no token of a family it is
      meant for is ever active again, stored by then or minted later, so none is ever exchanged. */
  lemma RevokedForGood(before: seq<Step>, scope: Scope, run: seq<Step>, f: string)
    requires Legal(Start, before) && Quiet(After(Start, before)) && Meant(After(Start, before), scope, f)
    requires Legal(Next(After(Start, before), RevokeAll(scope)), run)
    ensures ActiveIn(After(Next(After(Start, before), RevokeAll(scope)), run), f) == {}
  {
    var s := After(Start, before);
    ReachableInv(before);
    HoldersRun(Start, before);
    assert !Slips(s, scope);
    RevocationIsFinalIff(s, scope);
    assert NeverActive(s, scope, run);
  }

  /** Whatever is in flight, a token stored by then is never exchanged again. */
  lemma StoredIsSpent(s: State, scope: Scope, run: seq<Step>, jti: string)
    requires Inv(s) && jti in s.tokens && Covers(scope, s.tokens[jti])
    requires Legal(Next(s, RevokeAll(scope)), run)
    ensures Successes(Next(s, RevokeAll(scope)), run, jti) == 0
  {
    var s' := Next(s, RevokeAll(scope));
    RevokeKeeps(s, scope);
    assert s'.tokens[jti].status == Revoked;
    SpentStaysSpent(s', run, jti);
  }

  lemma {:induction false} Append(s: State, a: seq<Step>, b: seq<Step>)
    requires Legal(s, a) && Legal(After(s, a), b)
    ensures Legal(s, a + b) && After(s, a + b) == After(After(s, a), b)
    decreases |a|
  {
    if a == [] {
      assert a + b == b;
    } else {
      assert (a + b)[1..] == a[1..] + b;
      Append(Next(s, a[0]), a[1..], b);
    }
  }

  lemma Two(s: State, a: Step, b: Step)
    requires Enabled(s, a) && Enabled(Next(s, a), b)
    ensures Legal(s, [a, b]) && After(s, [a, b]) == Next(Next(s, a), b)
  {
    OneStep(s, a);
    OneStep(Next(s, a), b);
    Append(s, [a], [b]);
    assert [a] + [b] == [a, b];
  }

  /** Two calls have read the same active token; both go for the compare-and-set. */
  function BothChecked(): State {
    State(map["a" := Rec("f", "t", "u", Active, None)],
          map[0 := Checked("a", "t", "u", "f"), 1 := Checked("a", "t", "u", "f")],
          map["f" := ["a"]], map["a" := "f"], map[], map["f" := Holder("t", "u")])
  }

  lemma RaceOpens() returns (run: seq<Step>)
    ensures Legal(Start, run) && After(Start, run) == BothChecked()
  {
    var s1 := Next(Start, Login("a", "f", "t", "u"));
    var s3 := Next(Next(s1, Begin(0, "a", "t", "u")), Read(0));
    OneStep(Start, Login("a", "f", "t", "u"));
    Two(s1, Begin(0, "a", "t", "u"), Read(0));
    Two(s3, Begin(1, "a", "t", "u"), Read(1));
    Append(s1, [Begin(0, "a", "t", "u"), Read(0)], [Begin(1, "a", "t", "u"), Read(1)]);
    run := [Login("a", "f", "t", "u")] + ([Begin(0, "a", "t", "u"), Read(0)] + [Begin(1, "a", "t", "u"), Read(1)]);
    Append(Start, [Login("a", "f", "t", "u")], [Begin(0, "a", "t", "u"), Read(0)] + [Begin(1, "a", "t", "u"), Read(1)]);
  }

  lemma RaceCloses() returns (run: seq<Step>)
    ensures Legal(BothChecked(), run) && RevokeReused(1) in run && ActiveIn(After(BothChecked(), run), "f") != {}
  {
    var s := BothChecked();
    var s1 := Next(s, Cas(0, "b"));
    var s2 := Next(s1, Cas(1, "c"));
    assert s2.calls[0] == Won("b", "t", "u", "f") && s2.calls[1] == Reused("f");
    Two(s, Cas(0, "b"), Cas(1, "c"));
    Two(s2, RevokeReused(1), Insert(0));
    run := [Cas(0, "b"), Cas(1, "c")] + [RevokeReused(1), Insert(0)];
    Append(s, [Cas(0, "b"), Cas(1, "c")], [RevokeReused(1), Insert(0)]);
    assert run[2] == RevokeReused(1);
    assert "b" in ActiveIn(After(s, run), "f");
  }

  /** The race behind the condition is real: two calls present the same token, the loser revokes
      the family, then the winner stores its successor. */
  lemma ReuseRace()
    ensures exists run :: Legal(Start, run) && RevokeReused(1) in run && ActiveIn(After(Start, run), "f") != {}
  {
    var a := RaceOpens();
    var b := RaceCloses();
    Append(Start, a, b);
    assert RevokeReused(1) in a + b;
  }

  lemma LateInsert(scope: Scope) returns (run: seq<Step>)
    ensures Legal(BothChecked(), run) && RevokeAll(scope) in run && "b" in ActiveIn(After(BothChecked(), run), "f")
  {
    var s := BothChecked();
    var s1 := Next(s, Cas(0, "b"));
    var s2 := Next(s1, RevokeAll(scope));
    assert s1.calls[0] == Won("b", "t", "u", "f");
    OneStep(s, Cas(0, "b"));
    Two(s1, RevokeAll(scope), Insert(0));
    run := [Cas(0, "b")] + [RevokeAll(scope), Insert(0)];
    Append(s, [Cas(0, "b")], [RevokeAll(scope), Insert(0)]);
    assert run[1] == RevokeAll(scope);
    assert After(s, run) == Next(s2, Insert(0));
  }

  /** The same for every other revocation: it comes between the compare-and-set and the insert of a
      rotation it is meant for, and the successor becomes active after it. */
  lemma RevocationRace(scope: Scope)
    requires scope in {OfFamily("f"), OfUser("u"), OfTenant("t")}
    ensures Meant(BothChecked(), scope, "f")
    ensures exists run :: Legal(Start, run) && RevokeAll(scope) in run && "b" in ActiveIn(After(Start, run), "f")
  {
    var a := RaceOpens();
    var b := LateInsert(scope);
    Append(Start, a, b);
    assert RevokeAll(scope) in a + b;
  }

  // ----- Uninterrupted calls -----

  /** No call is between its compare-and-set and its insert. */
  predicate Quiet(s: State) {
    forall p :: p in s.calls ==> !s.calls[p].Won?
  }

  /** The steps one refresh call takes when nothing comes in between. */
  function RefreshSteps(s: State, p: nat, jti: string, tenant: string, user: string, admitted: bool,
                        new_: string): seq<Step> {
    [Begin(p, jti, tenant, user), Read(p)] +
    match RefreshOutcome(s.tokens, jti, admitted, new_)
    case Unknown => []
    case RevokedToken => []
    case Reuse => [RevokeReused(p)]
    case Denied => [Refuse(p)]
    case Issued(_) => [Cas(p, new_), Insert(p)]
  }

  lemma OneStep(s: State, a: Step)
    requires Enabled(s, a)
    ensures Legal(s, [a]) && After(s, [a]) == Next(s, a)
  {
    assert [a][1..] == [];
  }

  lemma CallBegins(s: State, p: nat, jti: string, tenant: string, user: string)
    requires p !in s.calls && Signed(s.tokens, jti, tenant, user)
    ensures Legal(s, [Begin(p, jti, tenant, user), Read(p)])
    ensures var s2 := After(s, [Begin(p, jti, tenant, user), Read(p)]);
            s2 == s.(calls := s.calls[p := ReadCall(s.tokens, Started(jti, tenant, user))])
  {
    Two(s, Begin(p, jti, tenant, user), Read(p));
  }

  lemma CallEnds(s: State, p: nat, new_: string)
    requires p in s.calls && s.calls[p].Checked? && new_ !in s.owner && CanRotate(s.tokens, s.calls[p].jti)
    ensures Legal(s, [Cas(p, new_), Insert(p)])
    ensures var s' := After(s, [Cas(p, new_), Insert(p)]); var c := s.calls[p];
            && s'.tokens == Rotate(s.tokens, c.jti, new_)[new_ := Rec(c.family, c.tenant, c.user, Active, None)]
            && s'.calls == s.calls[p := Finished]
  {
    Two(s, Cas(p, new_), Insert(p));
  }

  ghost predicate RunIsHandler(s: State, p: nat, jti: string, tenant: string, user: string, admitted: bool,
                               new_: string) {
    var run := RefreshSteps(s, p, jti, tenant, user, admitted, new_);
    && Legal(s, run) && Quiet(After(s, run))
    && After(s, run).tokens == Refreshed(s.tokens, jti, tenant, user, admitted, new_)
  }

  lemma IssueIsHandler(s: State, p: nat, jti: string, tenant: string, user: string, new_: string)
    requires Quiet(s) && p !in s.calls && new_ !in s.owner && CanRotate(s.tokens, jti)
    requires Signed(s.tokens, jti, tenant, user)
    ensures RunIsHandler(s, p, jti, tenant, user, true, new_)
  {
    var first := [Begin(p, jti, tenant, user), Read(p)];
    CallBegins(s, p, jti, tenant, user);
    CallEnds(After(s, first), p, new_);
    Append(s, first, [Cas(p, new_), Insert(p)]);
  }

  /** The handler of the store class is the machine's uninterrupted call. */
  lemma UninterruptedIsHandler(s: State, p: nat, jti: string, tenant: string, user: string, admitted: bool,
                               new_: string)
    requires Quiet(s) && p !in s.calls && new_ !in s.owner && Signed(s.tokens, jti, tenant, user)
    ensures RunIsHandler(s, p, jti, tenant, user, admitted, new_)
  {
    var first := [Begin(p, jti, tenant, user), Read(p)];
    CallBegins(s, p, jti, tenant, user);
    match RefreshOutcome(s.tokens, jti, admitted, new_)
    case Unknown => Append(s, first, []);
    case RevokedToken => Append(s, first, []);
    case Reuse => EndIsHandler(s, p, jti, tenant, user, admitted, new_, RevokeReused(p));
    case Denied => EndIsHandler(s, p, jti, tenant, user, admitted, new_, Refuse(p));
    case Issued(_) => IssueIsHandler(s, p, jti, tenant, user, new_);
  }

  lemma EndIsHandler(s: State, p: nat, jti: string, tenant: string, user: string, admitted: bool, new_: string,
                     end: Step)
    requires Quiet(s) && p !in s.calls && new_ !in s.owner && Signed(s.tokens, jti, tenant, user)
    requires RefreshOutcome(s.tokens, jti, admitted, new_) == if end == Refuse(p) then Denied else Reuse
    requires end == Refuse(p) || end == RevokeReused(p)
    ensures RunIsHandler(s, p, jti, tenant, user, admitted, new_)
  {
    var first := [Begin(p, jti, tenant, user), Read(p)];
    CallBegins(s, p, jti, tenant, user);
    OneStep(After(s, first), end);
    Append(s, first, [end]);
  }

  /** Handler by handler, presenting a rotated token ends its family for the rest of the run. */
  lemma ReuseEndsFamily(s: State, p: nat, jti: string, tenant: string, user: string, admitted: bool, new_: string,
                        run: seq<Step>)
    requires Inv(s) && Quiet(s) && p !in s.calls && new_ !in s.owner && Signed(s.tokens, jti, tenant, user)
    requires jti in s.tokens && s.tokens[jti].status == Rotated
    requires Legal(s, RefreshSteps(s, p, jti, tenant, user, admitted, new_))
    requires Legal(After(s, RefreshSteps(s, p, jti, tenant, user, admitted, new_)), run)
    ensures ActiveIn(After(After(s, RefreshSteps(s, p, jti, tenant, user, admitted, new_)), run),
            s.tokens[jti].family) == {}
  {
    var steps := RefreshSteps(s, p, jti, tenant, user, admitted, new_);
    var f := s.tokens[jti].family;
    UninterruptedIsHandler(s, p, jti, tenant, user, admitted, new_);
    RunKeeps(s, steps);
    var s' := After(s, steps);
    RunLater(s, steps);
    StillInChains(s, steps, f);
    assert s'.tokens == Revoke(s.tokens, OfFamily(f));
    assert Dead(s', f);
    DeadRun(s', run, f);
  }

  lemma {:induction false} StillInChains(s: State, run: seq<Step>, f: string)
    requires Legal(s, run) && f in s.chains
    ensures f in After(s, run).chains
    decreases |run|
  {
    if run != [] {
      StillInChains(Next(s, run[0]), run[1..], f);
    }
  }
}
