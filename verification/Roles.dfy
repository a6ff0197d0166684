/**
 Roles, menus and memberships (fusion_identity/store.py:414-436, 582-596, 637-826;
 fusion_identity/auth.py:211-243, 506-530; fusion_identity/routes/members.py:36-149, 233-258;
 fusion_identity/deps.py:84-104).

 Users, display names, audit records and password proofs are not modelled; that menu ids and write
 classes are well formed is a parameter of the calls that check it.
 */
module Roles {
  import opened Util

  const ADMIN := "tenant_admin"
  const BUILT_IN: set<string> := {"tenant_admin", "operator", "member", "viewer"}
  const DEFAULT_MENUS: set<string> := {"dashboard", "tenants", "users", "roles", "quotas", "usage", "audit",
    "settings", "models", "tasks"}
  const MAX_CUSTOM_ROLES := 64
  const MAX_MENUS_PER_TENANT := 256
  const MAX_MENUS_PER_ROLE := 64

  /** (tenant, user) or (tenant, role). */
  type Pair = (string, string)

  /** The role of each member, the write classes of each custom role, the menus of each role that
      has a row of its own, and the menus registered for each tenant. */
  datatype State = State(members: map<Pair, string>, custom: map<Pair, set<string>>, menus: map<Pair, seq<string>>,
                         known: map<string, set<string>>)

  const Empty := State(map[], map[], map[], map[])

  /** is_valid_role: built in, or a custom role of this very tenant. */
  predicate Resolves(s: State, tenant: string, role: string) {
    role in BUILT_IN || (tenant, role) in s.custom
  }

  function KnownTo(s: State, tenant: string): set<string> {
    (if tenant in s.known then s.known[tenant] else {}) + DEFAULT_MENUS
  }

  /** The members of a tenant with a role. */
  function With(s: State, tenant: string, role: string): set<string> {
    set k | k in s.members && k.0 == tenant && s.members[k] == role :: k.1
  }

  /** list(dict.fromkeys(menus)): first occurrences, in order. */
  function Unique(menus: seq<string>): seq<string> {
    if menus == [] then []
    else if Last(menus) in Init(menus) then Unique(Init(menus))
    else Unique(Init(menus)) + [Last(menus)]
  }

  datatype Reply = Done | Missing | Conflict | Forbidden

  datatype Answer = Answer(state: State, reply: Reply)

  // ----- Store operations -----

  function AddMember(s: State, tenant: string, user: string, role: string): Answer {
    if !Resolves(s, tenant, role) then Answer(s, Conflict)
    else Answer(s.(members := s.members[(tenant, user) := role]), Done)
  }

  function UpdateRole(s: State, tenant: string, user: string, role: string): Answer {
    if !Resolves(s, tenant, role) then Answer(s, Conflict)
    else if (tenant, user) !in s.members then Answer(s, Missing)
    else Answer(s.(members := s.members[(tenant, user) := role]), Done)
  }

  function RemoveMember(s: State, tenant: string, user: string): Answer {
    if (tenant, user) !in s.members then Answer(s, Missing)
    else Answer(s.(members := s.members - {(tenant, user)}), Done)
  }

  function CustomOf(s: State, tenant: string): set<Pair> {
    set k | k in s.custom && k.0 == tenant
  }

  predicate Between(c: char, low: char, high: char) {
    low <= c <= high
  }

  /** The characters of an id; the first one is a small letter or a digit. */
  predicate IdShape(id: string) {
    && 1 <= |id| <= 64
    && (forall c :: c in id ==> Between(c, 'a', 'z') || Between(c, '0', '9') || c in {'_', '.', ':', '-'})
    && (Between(id[0], 'a', 'z') || Between(id[0], '0', '9'))
  }

  /** _valid_id: the end of the pattern also matches before a last line feed. */
  predicate ValidId(id: string) {
    IdShape(id) || (id != "" && Last(id) == '\n' && IdShape(Init(id)))
  }

  function CreateRole(s: State, tenant: string, role: string, writes: set<string>, valid: bool): Answer {
    if !ValidId(role) || !valid || role in BUILT_IN || |CustomOf(s, tenant)| >= MAX_CUSTOM_ROLES
      || (tenant, role) in s.custom then Answer(s, Conflict)
    else Answer(s.(custom := s.custom[(tenant, role) := writes]), Done)
  }

  /** update_custom_role: None leaves the write classes alone. */
  function AmendRole(s: State, tenant: string, role: string, writes: Option<set<string>>, valid: bool): Answer {
    if role in BUILT_IN then Answer(s, Conflict)
    else if (tenant, role) !in s.custom then Answer(s, Missing)
    else if writes == None then Answer(s, Done)
    else if !valid then Answer(s, Conflict)
    else Answer(s.(custom := s.custom[(tenant, role) := writes.value]), Done)
  }

  function DeleteRole(s: State, tenant: string, role: string): Answer {
    if role in BUILT_IN then Answer(s, Conflict)
    else if (tenant, role) !in s.custom then Answer(s, Missing)
    else if With(s, tenant, role) != {} then Answer(s, Conflict)
    else Answer(s.(custom := s.custom - {(tenant, role)}, menus := s.menus - {(tenant, role)}), Done)
  }

  function SetMenus(s: State, tenant: string, role: string, menus: seq<string>, valid: bool): Answer {
    if !Resolves(s, tenant, role) || |menus| > MAX_MENUS_PER_ROLE || !valid
      || (exists m :: m in menus && m !in KnownTo(s, tenant)) then Answer(s, Conflict)
    else Answer(s.(menus := s.menus[(tenant, role) := Unique(menus)]), Done)
  }

  function ResetMenus(s: State, tenant: string, role: string): Answer {
    if !Resolves(s, tenant, role) then Answer(s, Conflict)
    else Answer(s.(menus := s.menus - {(tenant, role)}), Done)
  }

  function AddKnown(s: State, tenant: string, menus: seq<string>, valid: bool): Answer {
    var now := (if tenant in s.known then s.known[tenant] else {}) + set m | m in menus;
    if !valid || |menus| > MAX_MENUS_PER_TENANT || |now| > MAX_MENUS_PER_TENANT then Answer(s, Conflict)
    else Answer(s.(known := s.known[tenant := now]), Done)
  }

  /** delete_tenant, what it does to members, roles and menus. */
  function DeleteTenant(s: State, tenant: string): State {
    State(map k | k in s.members && k.0 != tenant :: s.members[k],
          map k | k in s.custom && k.0 != tenant :: s.custom[k],
          map k | k in s.menus && k.0 != tenant :: s.menus[k], s.known - {tenant})
  }

  class RoleStore {
    var s: State

    constructor ()
      ensures s == Empty
    {
      s := Empty;
    }

    method AddMembership(tenant: string, user: string, role: string) returns (r: Reply)
      modifies this
      ensures Answer(s, r) == AddMember(old(s), tenant, user, role)
    {
      if !Resolves(s, tenant, role) {
        return Conflict;
      }
      s := s.(members := s.members[(tenant, user) := role]);
      return Done;
    }

    /** count_members_by_role. */
    method CountByRole(tenant: string, role: string) returns (n: nat)
      ensures n == |With(s, tenant, role)|
    {
      n := 0;
      ghost var seen: set<string> := {};
      var todo := s.members.Keys;
      while todo != {}
        invariant todo <= s.members.Keys
        invariant n == |seen|
        invariant forall u ::
                    u in seen <==> (tenant, u) in s.members && (tenant, u) !in todo && s.members[(tenant, u)] == role
        decreases todo
      {
        var k :| k in todo;
        if k.0 == tenant && s.members[k] == role {
          assert k == (tenant, k.1);
          n := n + 1;
          seen := seen + {k.1};
        }
        todo := todo - {k};
      }
      forall u ensures u in seen <==> u in With(s, tenant, role) { WithAt(s, tenant, role, u); }
      assert seen == With(s, tenant, role);
    }

    method RemoveRole(tenant: string, role: string) returns (r: Reply)
      modifies this
      ensures Answer(s, r) == DeleteRole(old(s), tenant, role)
    {
      if role in BUILT_IN {
        return Conflict;
      }
      if (tenant, role) !in s.custom {
        return Missing;
      }
      var inUse := CountByRole(tenant, role);
      if inUse > 0 {
        return Conflict;
      }
      s := s.(custom := s.custom - {(tenant, role)});
      s := s.(menus := s.menus - {(tenant, role)});
      return Done;
    }

    /** The PATCH route: nobody changes their own role, and the last admin stays one. */
    method PatchRole(caller: string, tenant: string, user: string, role: string) returns (r: Reply)
      modifies this
      ensures Answer(s, r) == PatchRoute(old(s), caller, tenant, user, role)
    {
      if user == caller {
        return Forbidden;
      }
      if role != ADMIN {
        var count := CountByRole(tenant, ADMIN);
        if (tenant, user) in s.members && s.members[(tenant, user)] == ADMIN && count <= 1 {
          return Forbidden;
        }
      }
      if !Resolves(s, tenant, role) {
        return Conflict;
      }
      if (tenant, user) !in s.members {
        return Missing;
      }
      s := s.(members := s.members[(tenant, user) := role]);
      return Done;
    }

    /** The DELETE route. */
    method DeleteMember(caller: string, tenant: string, user: string) returns (r: Reply)
      modifies this
      ensures Answer(s, r) == DeleteRoute(old(s), caller, tenant, user)
    {
      if user == caller {
        return Forbidden;
      }
      var count := CountByRole(tenant, ADMIN);
      if (tenant, user) in s.members && s.members[(tenant, user)] == ADMIN && count <= 1 {
        return Forbidden;
      }
      if (tenant, user) !in s.members {
        return Missing;
      }
      s := s.(members := s.members - {(tenant, user)});
      return Done;
    }
  }

  lemma WithAt(s: State, tenant: string, role: string, u: string)
    ensures u in With(s, tenant, role) <==> (tenant, u) in s.members && s.members[(tenant, u)] == role
  {
    if (tenant, u) in s.members && s.members[(tenant, u)] == role { assert (tenant, u).1 == u; }
  }

  // ----- Routes -----

  predicate LastAdmin(s: State, tenant: string, user: string) {
    (tenant, user) in s.members && s.members[(tenant, user)] == ADMIN && |With(s, tenant, ADMIN)| <= 1
  }

  function PatchRoute(s: State, caller: string, tenant: string, user: string, role: string): Answer {
    if user == caller || (role != ADMIN && LastAdmin(s, tenant, user)) then Answer(s, Forbidden)
    else UpdateRole(s, tenant, user, role)
  }

  function DeleteRoute(s: State, caller: string, tenant: string, user: string): Answer {
    if user == caller || LastAdmin(s, tenant, user) then Answer(s, Forbidden) else RemoveMember(s, tenant, user)
  }

  /** Both POST routes: only a user who is not yet a member. */
  function PostRoute(s: State, tenant: string, user: string, role: string): Answer {
    if (tenant, user) in s.members then Answer(s, Conflict) else AddMember(s, tenant, user, role)
  }

  /** What the member routes change: the one membership they are for, to the role they give, or away; and
      when. The last administrator is one whom nobody else in the tenant is. */
  lemma RoutesAre(s: State, caller: string, t: string, u: string, role: string, k: Pair)
    ensures
      var last := (t, u) in s.members && s.members[(t, u)] == "tenant_admin" && |With(s, t, "tenant_admin")| <= 1;
      && PatchRoute(s, caller, t, u, role).state.members ==
           (if u != caller && !(role != "tenant_admin" && last) && Resolves(s, t, role) && (t, u) in s.members
            then s.members[(t, u) := role] else s.members)
      && DeleteRoute(s, caller, t, u).state.members ==
           (if u != caller && !last then s.members - {(t, u)} else s.members)
      && PostRoute(s, t, u, role).state.members ==
           (if (t, u) !in s.members && Resolves(s, t, role) then s.members[(t, u) := role] else s.members)
  {
    assert (t, u) !in s.members ==> s.members - {(t, u)} == s.members;
  }

  // ----- Integrity -----

  /** Every membership's role resolves in its own tenant; every menu row belongs to a role that
      does, and lists each of its menus once, within the limit, all registered for the tenant. */
  predicate Member(s: State, k: Pair) {
    k in s.members ==> Resolves(s, k.0, s.members[k])
  }

  predicate Row(s: State, k: Pair) {
    k in s.menus ==>
      && Resolves(s, k.0, k.1)
      && |s.menus[k]| <= 64
      && (forall i, j :: 0 <= i < j < |s.menus[k]| ==> s.menus[k][i] != s.menus[k][j])
      && (forall m :: m in s.menus[k] ==> m in KnownTo(s, k.0))
  }

  ghost predicate Inv(s: State) {
    (forall k :: Member(s, k)) && (forall k :: Row(s, k))
  }

  lemma {:induction false} UniqueKeeps(menus: seq<string>)
    ensures |Unique(menus)| <= |menus|
    ensures forall m :: m in Unique(menus) <==> m in menus
    ensures forall i, j :: 0 <= i < j < |Unique(menus)| ==> Unique(menus)[i] != Unique(menus)[j]
  {
    if menus != [] {
      UniqueKeeps(Init(menus));
      assert menus == Init(menus) + [Last(menus)];
    }
  }

  /** First occurrences keep their places: more menus only come behind. */
  lemma {:induction false} UniqueInOrder(menus: seq<string>, more: seq<string>)
    ensures Unique(menus) <= Unique(menus + more)
    decreases |more|
  {
    if more == [] {
      assert menus + more == menus;
    } else {
      assert Init(menus + more) == menus + Init(more) && Last(menus + more) == Last(more);
      UniqueInOrder(menus, Init(more));
    }
  }

  /** No tenant has more custom roles or registered menus than allowed. */
  predicate Limits(s: State, t: string) {
    |CustomOf(s, t)| <= 64 && (t in s.known ==> |s.known[t]| <= 256)
  }

  lemma LimitsKeep(s: State, op: Op, t: string)
    requires Limits(s, t)
    ensures Limits(Next(s, op), t)
  {
    RolesWithin(s, op, t);
  }

  lemma RolesWithin(s: State, op: Op, t: string)
    requires |CustomOf(s, t)| <= MAX_CUSTOM_ROLES
    ensures |CustomOf(Next(s, op), t)| <= MAX_CUSTOM_ROLES
  {
    var custom := Next(s, op).custom;
    if op.Create? && op.tenant == t && custom != s.custom {
      assert CustomOf(Next(s, op), t) == CustomOf(s, t) + {(t, op.role)};
    } else {
      FewerRoles(s, op, t);
      SubsetCard(CustomOf(Next(s, op), t), CustomOf(s, t));
    }
  }

  lemma FewerRoles(s: State, op: Op, t: string)
    requires op.Create? && op.tenant == t ==> Next(s, op).custom == s.custom
    ensures CustomOf(Next(s, op), t) <= CustomOf(s, t)
  {
  }

  datatype Op =
    | Add(tenant: string, user: string, role: string)
    | Update(tenant: string, user: string, role: string)
    | Remove(tenant: string, user: string)
    | Create(tenant: string, role: string, writes: set<string>, valid: bool)
    | Amend(tenant: string, role: string, changed: Option<set<string>>, valid: bool)
    | Delete(tenant: string, role: string)
    | Menus(tenant: string, role: string, menus: seq<string>, valid: bool)
    | Reset(tenant: string, role: string)
    | Known(tenant: string, names: seq<string>, valid: bool)
    | Drop(tenant: string)

  function Next(s: State, op: Op): State {
    match op
    case Add(t, u, r) => AddMember(s, t, u, r).state
    case Update(t, u, r) => UpdateRole(s, t, u, r).state
    case Remove(t, u) => RemoveMember(s, t, u).state
    case Create(t, r, w, v) => CreateRole(s, t, r, w, v).state
    case Amend(t, r, w, v) => AmendRole(s, t, r, w, v).state
    case Delete(t, r) => DeleteRole(s, t, r).state
    case Menus(t, r, m, v) => SetMenus(s, t, r, m, v).state
    case Reset(t, r) => ResetMenus(s, t, r).state
    case Known(t, m, v) => AddKnown(s, t, m, v).state
    case Drop(t) => DeleteTenant(s, t)
  }

  function After(s: State, run: seq<Op>): State
    decreases |run|
  {
    if run == [] then s else After(Next(s, run[0]), run[1..])
  }

  lemma MemberKeeps(s: State, op: Op, k: Pair)
    requires Member(s, k)
    ensures Member(Next(s, op), k)
  {
    if op.Delete? && k in s.members && s.members[k] == op.role && k.0 == op.tenant {
      assert k.1 in With(s, op.tenant, op.role);
    }
  }

  lemma RowKeeps(s: State, op: Op, k: Pair)
    requires Row(s, k)
    ensures Row(Next(s, op), k)
  {
    if op.Menus? { MenusKeepRow(s, op.tenant, op.role, op.menus, op.valid, k); }
  }

  lemma MenusKeepRow(s: State, tenant: string, role: string, menus: seq<string>, valid: bool, k: Pair)
    requires Row(s, k)
    ensures Row(SetMenus(s, tenant, role, menus, valid).state, k)
  {
    UniqueKeeps(menus);
    if k == (tenant, role) {
      assert Resolves(s, tenant, role) ==> Resolves(s, k.0, k.1);
    }
  }

  lemma StepKeeps(s: State, op: Op)
    requires Inv(s)
    ensures Inv(Next(s, op))
  {
    forall k ensures Member(Next(s, op), k) { MemberKeeps(s, op, k); }
    forall k ensures Row(Next(s, op), k) { RowKeeps(s, op, k); }
  }

  lemma {:induction false} RunKeeps(s: State, run: seq<Op>)
    requires Inv(s)
    ensures Inv(After(s, run))
    ensures forall t :: Limits(s, t) ==> Limits(After(s, run), t)
    decreases |run|
  {
    if run != [] {
      StepKeeps(s, run[0]);
      forall t | Limits(s, t) ensures Limits(Next(s, run[0]), t) { LimitsKeep(s, run[0], t); }
      RunKeeps(Next(s, run[0]), run[1..]);
    }
  }

  // ----- What every operation stores -----

  lemma KnownToIs(s: State, t: string, menu: string)
    ensures menu in KnownTo(s, t) <==>
            || (t in s.known && menu in s.known[t])
            || menu in {"dashboard", "tenants", "users", "roles", "quotas", "usage", "audit", "settings", "models",
                        "tasks"}
  {
  }

  lemma ShapeIs(id: string)
    ensures IdShape(id) <==>
            && 0 < |id| < 65
            && ('a' <= id[0] <= 'z' || '0' <= id[0] <= '9')
            && forall i :: 0 <= i < |id| ==>
                 'a' <= id[i] <= 'z' || '0' <= id[i] <= '9' || id[i] in {'_', '.', ':', '-'}
  {
    if IdShape(id) {
      assert forall i :: 0 <= i < |id| ==> id[i] in id;
    }
  }

  /** Up to 64 characters, and perhaps one line feed after them. */
  lemma ValidIdIs(id: string)
    ensures ValidId(id) <==>
            var core := if id != "" && id[|id| - 1] == '\n' then id[..|id| - 1] else id;
            && 0 < |core| < 65
            && ('a' <= core[0] <= 'z' || '0' <= core[0] <= '9')
            && forall i :: 0 <= i < |core| ==>
                 'a' <= core[i] <= 'z' || '0' <= core[i] <= '9' || core[i] in {'_', '.', ':', '-'}
  {
    var fed := id != "" && id[|id| - 1] == '\n';
    if fed {
      assert Init(id) == id[..|id| - 1] && '\n' in id;
      ShapeIs(Init(id));
    } else {
      ShapeIs(id);
    }
  }

  function At<K, V>(m: map<K, V>, k: K): Option<V> {
    if k in m then Some(m[k]) else None
  }

  /** A role that may be created: a new well-formed id, not a built-in one, within the limit of 64. */
  predicate Creatable(s: State, t: string, role: string) {
    && ValidId(role) && role !in {"tenant_admin", "operator", "member", "viewer"}
    && (t, role) !in s.custom && |CustomOf(s, t)| < 64
  }

  /** One that may be deleted: a custom role that no member of the tenant has. */
  predicate Deletable(s: State, t: string, role: string) {
    && role !in {"tenant_admin", "operator", "member", "viewer"} && (t, role) in s.custom
    && forall k :: k in s.members && k.0 == t ==> s.members[k] != role
  }

  /** Every membership after an operation: the one it is about, and all others as they were. */
  lemma MembersAfter(s: State, op: Op, k: Pair)
    ensures
      At(Next(s, op).members, k) ==
      match op
      case Add(t, u, r) => if k == (t, u) && Resolves(s, t, r) then Some(r) else At(s.members, k)
      case Update(t, u, r) => if k == (t, u) && Resolves(s, t, r) && k in s.members then Some(r) else At(s.members, k)
      case Remove(t, u) => if k == (t, u) then None else At(s.members, k)
      case Drop(t) => if k.0 == t then None else At(s.members, k)
      case _ => At(s.members, k)
  {
  }

  /** Every custom role, with its write classes. */
  lemma CustomAfter(s: State, op: Op, k: Pair)
    ensures
      At(Next(s, op).custom, k) ==
      match op
      case Create(t, r, w, v) => if k == (t, r) && v && Creatable(s, t, r) then Some(w) else At(s.custom, k)
      case Amend(t, r, w, v) =>
        if k == (t, r) && v && w != None && k in s.custom && r !in {"tenant_admin", "operator", "member", "viewer"}
        then w else At(s.custom, k)
      case Delete(t, r) => if k == (t, r) && Deletable(s, t, r) then None else At(s.custom, k)
      case Drop(t) => if k.0 == t then None else At(s.custom, k)
      case _ => At(s.custom, k)
  {
    if op.Delete? { InUse(s, op.tenant, op.role); }
  }

  lemma InUse(s: State, t: string, role: string)
    ensures With(s, t, role) == {} <==> forall k :: k in s.members && k.0 == t ==> s.members[k] != role
  {
    if With(s, t, role) == {} {
      forall k | k in s.members && k.0 == t ensures s.members[k] != role {
        assert s.members[k] == role ==> k.1 in With(s, t, role);
      }
    }
  }

  /** Every menu row: set to the menus given, once each and in their order, or gone. */
  lemma MenusAfter(s: State, op: Op, k: Pair)
    ensures
      At(Next(s, op).menus, k) ==
      match op
      case Menus(t, r, m, v) =>
        if k == (t, r) && v && Resolves(s, t, r) && |m| <= 64 && (forall x :: x in m ==> x in KnownTo(s, t))
        then Some(Unique(m)) else At(s.menus, k)
      case Reset(t, r) => if k == (t, r) && Resolves(s, t, r) then None else At(s.menus, k)
      case Delete(t, r) => if k == (t, r) && Deletable(s, t, r) then None else At(s.menus, k)
      case Drop(t) => if k.0 == t then None else At(s.menus, k)
      case _ => At(s.menus, k)
  {
    if op.Delete? { InUse(s, op.tenant, op.role); }
  }

  /** The menus registered for every tenant. */
  lemma KnownAfter(s: State, op: Op, tenant: string)
    ensures
      At(Next(s, op).known, tenant) ==
      match op
      case Known(t, m, v) =>
        var all := (if t in s.known then s.known[t] else {}) + set x | x in m;
        if t == tenant && v && |m| <= 256 && |all| <= 256 then Some(all) else At(s.known, tenant)
      case Drop(t) => if t == tenant then None else At(s.known, tenant)
      case _ => At(s.known, tenant)
  {
  }

  /** What the operations answer: done, nothing there, or a conflict. */
  lemma RepliesAre(s: State, t: string, u: string, role: string, w: set<string>, m: seq<string>, v: bool)
    ensures AddMember(s, t, u, role).reply == if Resolves(s, t, role) then Done else Conflict
    ensures UpdateRole(s, t, u, role).reply ==
            if !Resolves(s, t, role) then Conflict else if (t, u) in s.members then Done else Missing
    ensures RemoveMember(s, t, u).reply == if (t, u) in s.members then Done else Missing
    ensures CreateRole(s, t, role, w, v).reply == if v && Creatable(s, t, role) then Done else Conflict
    ensures DeleteRole(s, t, role).reply == Done <==> Deletable(s, t, role)
    ensures DeleteRole(s, t, role).reply == Missing <==>
            role !in {"tenant_admin", "operator", "member", "viewer"} && (t, role) !in s.custom
    ensures SetMenus(s, t, role, m, v).reply in {Done, Conflict}
    ensures SetMenus(s, t, role, m, v).reply == Done <==>
            v && Resolves(s, t, role) && |m| <= 64 && forall x :: x in m ==> x in KnownTo(s, t)
  {
    InUse(s, t, role);
  }

  /** The operations that may change a membership. */
  predicate Touches(op: Op, t: string, u: string) {
    || ((op.Add? || op.Update? || op.Remove?) && op.tenant == t && op.user == u)
    || (op.Drop? && op.tenant == t)
  }

  lemma {:induction false} StaysAsItWas(s: State, run: seq<Op>, t: string, u: string)
    requires forall i :: 0 <= i < |run| ==> !Touches(run[i], t, u)
    ensures At(After(s, run).members, (t, u)) == At(s.members, (t, u))
    decreases |run|
  {
    if run != [] {
      assert !Touches(run[0], t, u);
      MembersAfter(s, run[0], (t, u));
      StaysAsItWas(Next(s, run[0]), run[1..], t, u);
    }
  }

  /** After a run whose last change of a membership gave it a role that resolved then, verify answers with
      that role, whatever happened before and to others since. */
  lemma VerifyFollows(before: seq<Op>, op: Op, rest: seq<Op>, t: string, u: string, role: string)
    requires op == Add(t, u, role) || (op == Update(t, u, role) && (t, u) in After(Empty, before).members)
    requires Resolves(After(Empty, before), t, role) && forall i :: 0 <= i < |rest| ==> !Touches(rest[i], t, u)
    ensures Verify(After(Empty, before + ([op] + rest)), t, u) == Ok(role)
  {
    var s := After(Empty, before);
    AfterConcat(Empty, before, [op] + rest);
    assert ([op] + rest)[1..] == rest;
    MembersAfter(s, op, (t, u));
    StaysAsItWas(Next(s, op), rest, t, u);
    VerifyResolves(before + ([op] + rest), t, u, role);
  }

  lemma {:induction false} AfterConcat(s: State, a: seq<Op>, b: seq<Op>)
    ensures After(s, a + b) == After(After(s, a), b)
    decreases |a|
  {
    if a == [] {
      assert a + b == b;
    } else {
      assert (a + b)[1..] == a[1..] + b;
      AfterConcat(Next(s, a[0]), a[1..], b);
    }
  }

  /** The role a token is verified with: the store's, never the token's. */
  function StoredRole(s: State, tenant: string, user: string): Option<string> {
    if (tenant, user) in s.members then Some(s.members[(tenant, user)]) else None
  }

  datatype Verified = Ok(role: string) | NotAMember | RoleGone

  /** verify, its membership and role steps. */
  function Verify(s: State, tenant: string, user: string): Verified {
    match StoredRole(s, tenant, user)
    case None => NotAMember
    case Some(role) => if Resolves(s, tenant, role) then Ok(role) else RoleGone
  }

  /** In every reachable state verify answers with the member's stored role, and only for members; it
      never meets a role that does not resolve. */
  lemma VerifyResolves(run: seq<Op>, tenant: string, user: string, role: string)
    ensures
      var s := After(Empty, run);
      && (Verify(s, tenant, user) == Ok(role) <==>
            (tenant, user) in s.members && s.members[(tenant, user)] == role)
      && (Verify(s, tenant, user) == NotAMember <==> (tenant, user) !in s.members)
      && Verify(s, tenant, user) != RoleGone
  {
    RunKeeps(Empty, run);
    assert Member(After(Empty, run), (tenant, user));
  }

  /** The identity-plane permissions of the built-in roles other than tenant_admin. */
  function Matrix(role: string, resource: string): set<string> {
    if role == "operator" then
      if resource in {"api_keys", "departments"} then {"read", "write", "delete"}
      else if resource in {"tenants", "members", "quotas", "audit", "usage"} then {"read"} else {}
    else if role == "member" then
      if resource == "departments" then {"read", "write"} else if resource in {"tenants", "usage"} then {"read"} else {}
    else if resource in {"tenants", "quotas", "usage", "departments"} then {"read"} else {}
  }

  /** _role_allows. */
  predicate Allows(s: State, tenant: string, role: string, resource: string, action: string) {
    if role == ADMIN then true
    else if role in BUILT_IN then action in Matrix(role, resource)
    else (tenant, role) in s.custom && resource + ":write" in s.custom[(tenant, role)]
  }

  /** What each role is allowed, spelled out. */
  lemma AllowsExactly(s: State, tenant: string, role: string, resource: string, action: string)
    ensures
      Allows(s, tenant, role, resource, action) <==>
      match role
      case "tenant_admin" => true
      case "operator" =>
        || (action == "read"
            && resource in {"tenants", "members", "api_keys", "quotas", "audit", "usage", "departments"})
        || (action in {"write", "delete"} && resource in {"api_keys", "departments"})
      case "member" =>
        || (action == "read" && resource in {"tenants", "usage", "departments"})
        || (action == "write" && resource == "departments")
      case "viewer" => action == "read" && resource in {"tenants", "quotas", "usage", "departments"}
      case _ => (tenant, role) in s.custom && resource + ":write" in s.custom[(tenant, role)]
  {
  }

  /** Nothing is allowed to a role that does not resolve in the tenant; a built-in role is allowed the
      same whatever custom roles exist; and only an administrator or a custom role with the write class
      of members may change memberships. */
  lemma AllowsOnlyResolved(s: State, other: State, tenant: string, role: string, resource: string, action: string)
    ensures Allows(s, tenant, role, resource, action) ==> Resolves(s, tenant, role)
    ensures role in BUILT_IN ==>
            Allows(s, tenant, role, resource, action) == Allows(other, tenant, role, resource, action)
    ensures resource == "members" && action in {"write", "delete"} && Allows(s, tenant, role, resource, action) ==>
              role == ADMIN || ((tenant, role) in s.custom && "members:write" in s.custom[(tenant, role)])
  {
    assert "members" + ":write" == "members:write";
  }

  // ----- The last admin -----

  datatype Route =
    | Patch(caller: string, tenant: string, user: string, role: string)
    | DeleteOne(caller: string, tenant: string, user: string)
    | Post(tenant: string, user: string, role: string)

  function Routed(s: State, r: Route): State {
    match r
    case Patch(c, t, u, role) => PatchRoute(s, c, t, u, role).state
    case DeleteOne(c, t, u) => DeleteRoute(s, c, t, u).state
    case Post(t, u, role) => PostRoute(s, t, u, role).state
  }

  /** Giving a user of a tenant a role, or taking the membership away, touches nobody else. */
  lemma OthersStay(s: State, tenant: string, user: string, role: string, other: string, t: string)
    requires other in With(s, t, ADMIN) && (other != user || t != tenant)
    ensures other in With(s.(members := s.members[(tenant, user) := role]), t, ADMIN)
    ensures other in With(s.(members := s.members - {(tenant, user)}), t, ADMIN)
  {
    var k :| k in s.members && k.0 == t && s.members[k] == ADMIN && k.1 == other;
    assert k == (t, other);
    assert k in s.members[(tenant, user) := role] && k in s.members - {(tenant, user)};
  }

  lemma SecondOne(s: set<string>, x: string) returns (y: string)
    requires |s| > 1
    ensures y in s && y != x
  {
    if s <= {x} { SubsetCard(s, {x}); assert false; }
    y :| y in s && y != x;
  }

  lemma RouteKeepsAdmin(s: State, r: Route, t: string)
    requires With(s, t, ADMIN) != {}
    ensures With(Routed(s, r), t, ADMIN) != {}
  {
    var admin :| admin in With(s, t, ADMIN);
    if admin == r.user && t == r.tenant {
      if |With(s, t, ADMIN)| > 1 {
        admin := SecondOne(With(s, t, ADMIN), r.user);
      } else {
        assert (t, r.user) in s.members && s.members[(t, r.user)] == ADMIN;
      }
    }
    if admin != r.user || t != r.tenant {
      OthersStay(s, r.tenant, r.user, if r.DeleteOne? then ADMIN else r.role, admin, t);
    } else if r.Patch? && r.role == ADMIN && Routed(s, r) != s {
      assert (t, r.user) in Routed(s, r).members;
    }
  }

  function AfterRoutes(s: State, run: seq<Route>): State
    decreases |run|
  {
    if run == [] then s else AfterRoutes(Routed(s, run[0]), run[1..])
  }

  /** Over any run of the member routes, a tenant that has an admin keeps one. */
  lemma {:induction false} AdminRemains(s: State, run: seq<Route>, t: string)
    requires With(s, t, ADMIN) != {}
    ensures With(AfterRoutes(s, run), t, ADMIN) != {}
    decreases |run|
  {
    if run != [] {
      RouteKeepsAdmin(s, run[0], t);
      AdminRemains(Routed(s, run[0]), run[1..], t);
    }
  }

  // ----- Overlapping handlers -----

  /** What a PATCH, DELETE or POST handler was asked for. */
  datatype Demand =
    | Regrade(caller: string, tenant: string, user: string, role: string)
    | Dismiss(caller: string, tenant: string, user: string)
    | Join(tenant: string, user: string, role: string)

  /** Its first check: nobody works on themselves, and only new members are added. */
  predicate Admissible(s: State, d: Demand) {
    match d
    case Regrade(c, _, u, _) => u != c
    case Dismiss(c, _, u) => u != c
    case Join(t, u, _) => (t, u) !in s.members
  }

  /** A demand that may cost an admin is checked by two reads, the number of admins and then the target. */
  predicate NeedsCount(d: Demand) {
    d.Dismiss? || (d.Regrade? && d.role != ADMIN)
  }

  /** add_member writes over a membership that has come about since the check. */
  function Written(s: State, d: Demand): State {
    match d
    case Regrade(_, t, u, role) => UpdateRole(s, t, u, role).state
    case Dismiss(_, t, u) => RemoveMember(s, t, u).state
    case Join(t, u, role) => AddMember(s, t, u, role).state
  }

  function RouteOf(d: Demand): Route {
    match d
    case Regrade(c, t, u, role) => Patch(c, t, u, role)
    case Dismiss(c, t, u) => DeleteOne(c, t, u)
    case Join(t, u, role) => Post(t, u, role)
  }

  /** A handler that has counted the admins of its tenant. */
  datatype Counting = Counting(demand: Demand, admins: nat)

  /** The members and roles, and the handlers between their two reads, and before their write. */
  datatype World = World(s: State, counted: map<nat, Counting>, waiting: map<nat, Demand>)

  datatype Move =
    | Check(p: nat, demand: Demand)
    | Look(p: nat)
    | Write(p: nat)
    | Whole(route: Route)
    | NewRole(tenant: string, role: string, writes: set<string>, valid: bool)
    | DropRole(tenant: string, role: string)

  predicate Enabled(w: World, m: Move) {
    match m
    case Check(p, _) => p !in w.counted && p !in w.waiting
    case Look(p) => p in w.counted
    case Write(p) => p in w.waiting
    case _ => true
  }

  function Moved(w: World, m: Move): World
    requires Enabled(w, m)
  {
    match m
    case Check(p, d) =>
      if !Admissible(w.s, d) then w
      else if NeedsCount(d) then w.(counted := w.counted[p := Counting(d, |With(w.s, d.tenant, ADMIN)|)])
      else w.(waiting := w.waiting[p := d])
    case Look(p) =>
      var d := w.counted[p].demand;
      var last := StoredRole(w.s, d.tenant, d.user) == Some(ADMIN) && w.counted[p].admins <= 1;
      w.(counted := w.counted - {p}, waiting := if last then w.waiting else w.waiting[p := d])
    case Write(p) => w.(s := Written(w.s, w.waiting[p]), waiting := w.waiting - {p})
    case Whole(r) => w.(s := Routed(w.s, r))
    case NewRole(t, role, writes, valid) => w.(s := CreateRole(w.s, t, role, writes, valid).state)
    case DropRole(t, role) => w.(s := DeleteRole(w.s, t, role).state)
  }

  predicate Legal(w: World, run: seq<Move>)
    decreases |run|
  {
    if run == [] then true else Enabled(w, run[0]) && Legal(Moved(w, run[0]), run[1..])
  }

  function AfterMoves(w: World, run: seq<Move>): World
    requires Legal(w, run)
    decreases |run|
  {
    if run == [] then w else AfterMoves(Moved(w, run[0]), run[1..])
  }

  /** A handler that nothing interrupts. */
  function Through(w: World, p: nat, d: Demand): World
    requires p !in w.counted && p !in w.waiting
  {
    var w1 := Moved(w, Check(p, d));
    var w2 := if p in w1.counted then Moved(w1, Look(p)) else w1;
    if p in w2.waiting then Moved(w2, Write(p)) else w2
  }

  /** Checks and write in one go are the route. */
  lemma CheckThenWrite(w: World, p: nat, d: Demand)
    requires p !in w.counted && p !in w.waiting
    ensures Through(w, p, d) == Moved(w, Whole(RouteOf(d)))
  {
    assert w.waiting[p := d] - {p} == w.waiting;
    assert w.counted[p := Counting(d, |With(w.s, d.tenant, ADMIN)|)] - {p} == w.counted;
  }

  /** A write that, done now, takes the role from its target if that is an admin. */
  predicate Demotes(s: State, d: Demand, t: string) {
    d.tenant == t && (d.Dismiss? || (d.role != ADMIN && Resolves(s, t, d.role)))
  }

  /** One that does so now or once its role has been created. */
  predicate Threatens(s: State, d: Demand, t: string) {
    d.tenant == t && (d.Dismiss? || (d.role != ADMIN && (Resolves(s, t, d.role) || ValidId(d.role))))
  }

  /** No handler under way threatens the tenant's admins. */
  predicate NoThreat(w: World, t: string) {
    && (forall p :: p in w.waiting ==> !Threatens(w.s, w.waiting[p], t))
    && (forall p :: p in w.counted ==> !Threatens(w.s, w.counted[p].demand, t))
  }

  predicate NoCheck(run: seq<Move>) {
    forall i :: 0 <= i < |run| ==> !run[i].Check?
  }

  /** Only the target of a demotion stops being an admin. */
  lemma DemotionTakes(s: State, d: Demand, t: string)
    requires Demotes(s, d, t)
    ensures With(Written(s, d), t, ADMIN) == With(s, t, ADMIN) - {d.user}
  {
    forall u ensures u in With(Written(s, d), t, ADMIN) <==> u in With(s, t, ADMIN) - {d.user} {
      WithAt(Written(s, d), t, ADMIN, u);
      WithAt(s, t, ADMIN, u);
    }
  }

  lemma OtherWritesKeep(s: State, d: Demand, t: string)
    requires With(s, t, ADMIN) != {} && !Demotes(s, d, t)
    ensures With(Written(s, d), t, ADMIN) != {}
  {
    var a :| a in With(s, t, ADMIN);
    WithAt(s, t, ADMIN, a);
    WithAt(Written(s, d), t, ADMIN, a);
  }

  /** Roles that come and go change no membership, and none comes with an id that is not well formed. */
  lemma NewRolesAreValid(w: World, m: Move, t: string, role: string)
    requires Enabled(w, m) && !Resolves(w.s, t, role) && !ValidId(role)
    ensures !Resolves(Moved(w, m).s, t, role)
  {
  }

  lemma NoNewThreat(w: World, m: Move, d: Demand, t: string)
    requires Enabled(w, m) && !Threatens(w.s, d, t)
    ensures !Threatens(Moved(w, m).s, d, t)
  {
    if d.tenant == t && !d.Dismiss? && d.role != ADMIN { NewRolesAreValid(w, m, t, d.role); }
  }

  lemma MoveKeeps(w: World, m: Move, t: string)
    requires Enabled(w, m) && !m.Check? && With(w.s, t, ADMIN) != {} && NoThreat(w, t)
    ensures With(Moved(w, m).s, t, ADMIN) != {} && NoThreat(Moved(w, m), t)
  {
    var w' := Moved(w, m);
    forall d | !Threatens(w.s, d, t) ensures !Threatens(w'.s, d, t) { NoNewThreat(w, m, d, t); }
    if m.Write? {
      OtherWritesKeep(w.s, w.waiting[m.p], t);
    } else if m.Whole? {
      RouteKeepsAdmin(w.s, m.route, t);
    } else {
      assert w'.s.members == w.s.members;
    }
  }

  lemma {:induction false} MovesKeep(w: World, run: seq<Move>, t: string)
    requires Legal(w, run) && NoCheck(run) && With(w.s, t, ADMIN) != {} && NoThreat(w, t)
    ensures With(AfterMoves(w, run).s, t, ADMIN) != {}
    decreases |run|
  {
    if run != [] {
      assert !run[0].Check?;
      MoveKeeps(w, run[0], t);
      MovesKeep(Moved(w, run[0]), run[1..], t);
    }
  }

  /** A run that leaves a tenant without an admin. */
  predicate Loses(w: World, run: seq<Move>, t: string) {
    Legal(w, run) && With(AfterMoves(w, run).s, t, ADMIN) == {}
  }

  lemma Prepend(w: World, m: Move, run: seq<Move>)
    requires Enabled(w, m) && Legal(Moved(w, m), run)
    ensures Legal(w, [m] + run) && AfterMoves(w, [m] + run) == AfterMoves(Moved(w, m), run)
    ensures !m.Check? && NoCheck(run) ==> NoCheck([m] + run)
  {
    assert ([m] + run)[1..] == run;
  }

  lemma {:induction false} Concat(w: World, a: seq<Move>, b: seq<Move>)
    requires Legal(w, a) && Legal(AfterMoves(w, a), b)
    ensures Legal(w, a + b) && AfterMoves(w, a + b) == AfterMoves(AfterMoves(w, a), b)
    decreases |a|
  {
    if a == [] {
      assert a + b == b;
    } else {
      assert (a + b)[1..] == a[1..] + b;
      Concat(Moved(w, a[0]), a[1..], b);
    }
  }

  /** A user becomes an admin by one whole route. */
  function Promotion(s: State, t: string, u: string): Move {
    Whole(if (t, u) in s.members then Patch(u + "!", t, u, ADMIN) else Post(t, u, ADMIN))
  }

  lemma PromotionAdds(w: World, t: string, u: string)
    ensures With(Moved(w, Promotion(w.s, t, u)).s, t, ADMIN) == With(w.s, t, ADMIN) + {u}
    ensures Moved(w, Promotion(w.s, t, u)).s.custom == w.s.custom
  {
    var s' := Moved(w, Promotion(w.s, t, u)).s;
    assert |u + "!"| == |u| + 1;
    assert s'.members == w.s.members[(t, u) := ADMIN];
    forall x ensures x in With(s', t, ADMIN) <==> x in With(w.s, t, ADMIN) + {u} {
      WithAt(s', t, ADMIN, x);
      WithAt(w.s, t, ADMIN, x);
    }
  }

  function Dismissal(t: string, u: string): Move {
    Whole(DeleteOne(u + "!", t, u))
  }

  lemma DismissalTakes(w: World, t: string, a: string, b: string)
    requires a in With(w.s, t, ADMIN) && b in With(w.s, t, ADMIN) && a != b
    ensures With(Moved(w, Dismissal(t, a)).s, t, ADMIN) == With(w.s, t, ADMIN) - {a}
    ensures Moved(w, Dismissal(t, a)).s.custom == w.s.custom
  {
    assert |a + "!"| == |a| + 1;
    WithAt(w.s, t, ADMIN, a);
    SubsetCard({a, b}, With(w.s, t, ADMIN));
    DemotionTakes(w.s, Dismiss(a + "!", t, a), t);
  }

  /** While a demotion waits, whole routes can make its target the only admin, and then it writes. */
  lemma {:induction false} DemotionLoses(w: World, p: nat, t: string) returns (run: seq<Move>)
    requires p in w.waiting && Demotes(w.s, w.waiting[p], t)
    ensures Loses(w, run, t) && NoCheck(run)
    decreases if w.waiting[p].user in With(w.s, t, ADMIN) then 0 else 1, |With(w.s, t, ADMIN)|
  {
    var b := w.waiting[p].user;
    var m: Move;
    if b !in With(w.s, t, ADMIN) {
      m := Promotion(w.s, t, b);
      PromotionAdds(w, t, b);
      run := DemotionLoses(Moved(w, m), p, t);
    } else if With(w.s, t, ADMIN) != {b} {
      var a := OtherOne(With(w.s, t, ADMIN), b);
      m := Dismissal(t, a);
      DismissalTakes(w, t, a, b);
      run := DemotionLoses(Moved(w, m), p, t);
    } else {
      m := Write(p);
      DemotionTakes(w.s, w.waiting[p], t);
      run := [];
    }
    Prepend(w, m, run);
    run := [m] + run;
  }

  lemma OtherOne(s: set<string>, x: string) returns (y: string)
    requires x in s && s != {x}
    ensures y in s && y != x
  {
    y :| y in s && y != x;
  }

  // ----- A role can always be created -----

  /** Without new checks, and with the handlers under way where they are. */
  predicate Aside(w: World, run: seq<Move>) {
    Legal(w, run) && NoCheck(run) && AfterMoves(w, run).waiting == w.waiting && AfterMoves(w, run).counted == w.counted
  }

  lemma RoleTaken(w: World, t: string, role: string, u: string)
    requires u in With(w.s, t, role) && role != ADMIN
    ensures
      var w' := Moved(w, Dismissal(t, u));
      w'.s.custom == w.s.custom && With(w'.s, t, role) == With(w.s, t, role) - {u}
  {
    var w' := Moved(w, Dismissal(t, u));
    assert |u + "!"| == |u| + 1;
    WithAt(w.s, t, role, u);
    assert w'.s.members == w.s.members - {(t, u)};
    forall x ensures x in With(w'.s, t, role) <==> x in With(w.s, t, role) - {u} {
      WithAt(w'.s, t, role, x);
      WithAt(w.s, t, role, x);
    }
  }

  /** Whole routes can take a role from everybody who has it. */
  lemma {:induction false} RoleEmptied(w: World, t: string, role: string) returns (run: seq<Move>)
    requires role != ADMIN
    ensures Aside(w, run) && AfterMoves(w, run).s.custom == w.s.custom
    ensures With(AfterMoves(w, run).s, t, role) == {}
    decreases |With(w.s, t, role)|
  {
    run := [];
    if With(w.s, t, role) != {} {
      var u :| u in With(w.s, t, role);
      RoleTaken(w, t, role, u);
      run := RoleEmptied(Moved(w, Dismissal(t, u)), t, role);
      Prepend(w, Dismissal(t, u), run);
      run := [Dismissal(t, u)] + run;
    }
  }

  lemma SomeCustom(s: State, t: string) returns (role: string)
    requires |CustomOf(s, t)| >= MAX_CUSTOM_ROLES
    ensures (t, role) in s.custom && role !in BUILT_IN
  {
    var four := {(t, "tenant_admin"), (t, "operator"), (t, "member"), (t, "viewer")};
    if CustomOf(s, t) <= four { SubsetCard(CustomOf(s, t), four); assert false; }
    var k :| k in CustomOf(s, t) && k !in four;
    role := k.1;
  }

  /** So a tenant at its limit can make room for one more role. */
  lemma RoleDropped(w: World, t: string) returns (run: seq<Move>)
    requires |CustomOf(w.s, t)| >= MAX_CUSTOM_ROLES
    ensures Aside(w, run) && CustomOf(AfterMoves(w, run).s, t) < CustomOf(w.s, t)
  {
    var role := SomeCustom(w.s, t);
    var emptied := RoleEmptied(w, t, role);
    var w1 := AfterMoves(w, emptied);
    var w2 := Moved(w1, DropRole(t, role));
    assert w2.s.custom == w.s.custom - {(t, role)};
    assert (t, role) in CustomOf(w.s, t) && (t, role) !in CustomOf(w2.s, t);
    Prepend(w1, DropRole(t, role), []);
    Concat(w, emptied, [DropRole(t, role)] + []);
    run := emptied + ([DropRole(t, role)] + []);
  }

  lemma {:induction false} RoleCreated(w: World, t: string, role: string) returns (run: seq<Move>)
    requires ValidId(role) && role !in BUILT_IN
    ensures Aside(w, run) && Resolves(AfterMoves(w, run).s, t, role)
    decreases |CustomOf(w.s, t)|
  {
    if |CustomOf(w.s, t)| < MAX_CUSTOM_ROLES {
      Prepend(w, NewRole(t, role, {}, true), []);
      run := [NewRole(t, role, {}, true)] + [];
    } else {
      var dropped := RoleDropped(w, t);
      var w1 := AfterMoves(w, dropped);
      Fewer(CustomOf(w1.s, t), CustomOf(w.s, t));
      var created := RoleCreated(w1, t, role);
      Concat(w, dropped, created);
      run := dropped + created;
    }
  }

  lemma Fewer(a: set<Pair>, b: set<Pair>)
    requires a < b
    ensures |a| < |b|
  {
    var x :| x in b && x !in a;
    SubsetCard(a, b - {x});
  }

  lemma WaitingLoses(w: World, p: nat, t: string) returns (run: seq<Move>)
    requires p in w.waiting && Threatens(w.s, w.waiting[p], t)
    ensures Loses(w, run, t) && NoCheck(run)
  {
    if Demotes(w.s, w.waiting[p], t) {
      run := DemotionLoses(w, p, t);
    } else {
      var created := RoleCreated(w, t, w.waiting[p].role);
      var rest := DemotionLoses(AfterMoves(w, created), p, t);
      Concat(w, created, rest);
      run := created + rest;
    }
  }

  /** Whatever a handler has counted, its second read passes once its target is no admin. */
  lemma LookLoses(w: World, p: nat, t: string) returns (run: seq<Move>)
    requires p in w.counted && Threatens(w.s, w.counted[p].demand, t)
    requires w.counted[p].demand.user !in With(w.s, t, ADMIN)
    ensures Loses(w, run, t) && NoCheck(run)
  {
    var d := w.counted[p].demand;
    WithAt(w.s, t, ADMIN, d.user);
    var w1 := Moved(w, Look(p));
    assert w1.waiting[p] == d;
    run := WaitingLoses(w1, p, t);
    Prepend(w, Look(p), run);
    run := [Look(p)] + run;
  }

  /** And whole routes can see to that: a second admin joins and the target goes. */
  lemma CountedLoses(w: World, p: nat, t: string) returns (run: seq<Move>)
    requires p in w.counted && Threatens(w.s, w.counted[p].demand, t)
    ensures Loses(w, run, t) && NoCheck(run)
  {
    var u := w.counted[p].demand.user;
    if u !in With(w.s, t, ADMIN) {
      run := LookLoses(w, p, t);
    } else {
      var x := NewString(With(w.s, t, ADMIN));
      var join := Promotion(w.s, t, x);
      PromotionAdds(w, t, x);
      var w1 := Moved(w, join);
      DismissalTakes(w1, t, u, x);
      var rest := LookLoses(Moved(w1, Dismissal(t, u)), p, t);
      Prepend(w1, Dismissal(t, u), rest);
      Prepend(w, join, [Dismissal(t, u)] + rest);
      run := [join] + ([Dismissal(t, u)] + rest);
    }
  }

  lemma ThreatLoses(w: World, t: string) returns (run: seq<Move>)
    requires !NoThreat(w, t)
    ensures Loses(w, run, t) && NoCheck(run)
  {
    if p :| p in w.waiting && Threatens(w.s, w.waiting[p], t) {
      run := WaitingLoses(w, p, t);
    } else {
      var p :| p in w.counted && Threatens(w.s, w.counted[p].demand, t);
      run := CountedLoses(w, p, t);
    }
  }

  /** As long as no further handler is caught between its checks and its write: a tenant keeps an admin
      in every continuation of routes, reads, writes, and roles that come and go, exactly when no handler
      under way is to dismiss a member, or to give one another role that exists or can be created;
      whoever it is for and whatever its checks saw. */
  lemma OverlapKeepsAdminIff(w: World, t: string)
    requires With(w.s, t, ADMIN) != {}
    ensures (forall run | Legal(w, run) && NoCheck(run) :: With(AfterMoves(w, run).s, t, ADMIN) != {})
            <==> NoThreat(w, t)
  {
    if NoThreat(w, t) {
      forall run | Legal(w, run) && NoCheck(run) ensures With(AfterMoves(w, run).s, t, ADMIN) != {} {
        MovesKeep(w, run, t);
      }
    } else {
      var run := ThreatLoses(w, t);
      assert Legal(w, run) && NoCheck(run);
    }
  }

  lemma {:induction false} BeyondAll(s: set<nat>) returns (n: nat)
    ensures forall x: nat :: x in s ==> x < n
    decreases s
  {
    n := 0;
    if s != {} {
      var x :| x in s;
      var m := BeyondAll(s - {x});
      n := if x < m then m else x + 1;
      forall y: nat | y in s ensures y < n {
        if y != x { assert y in s - {x}; }
      }
    }
  }

  /** With new overlaps allowed no state is safe: a handler has only to make its first read. */
  lemma AnyStateCanLose(w: World, t: string) returns (run: seq<Move>)
    requires With(w.s, t, ADMIN) != {}
    ensures Loses(w, run, t)
  {
    var a :| a in With(w.s, t, ADMIN);
    var p := BeyondAll(w.counted.Keys + w.waiting.Keys);
    var check := Check(p, Dismiss(a + "!", t, a));
    assert |a + "!"| == |a| + 1;
    var rest := CountedLoses(Moved(w, check), p, t);
    Prepend(w, check, rest);
    run := [check] + rest;
  }

  // ----- Two runs that show it -----

  lemma TwoMoves(w: World, a: Move, b: Move)
    requires Enabled(w, a) && Enabled(Moved(w, a), b)
    ensures Legal(w, [a, b]) && AfterMoves(w, [a, b]) == Moved(Moved(w, a), b)
  {
    var w1 := Moved(w, a);
    assert [a, b][1..] == [b] && [b][1..] == [];
    assert Legal(Moved(w1, b), []) && Legal(w1, [b]) && AfterMoves(w1, [b]) == Moved(w1, b);
  }

  /** Two admins who dismiss each other at once: both checks count two, and nobody is left. */
  lemma TwoChecksRace(t: string, a: string, b: string)
    requires a != b
    ensures
      var w := World(Empty, map[], map[]);
      var run := [Whole(Post(t, a, ADMIN)), Whole(Post(t, b, ADMIN))]
                 + ([Check(0, Dismiss(b, t, a)), Check(1, Dismiss(a, t, b))]
                    + ([Look(0), Look(1)] + [Write(0), Write(1)]));
      Legal(w, run) && With(AfterMoves(w, run).s, t, ADMIN) == {}
  {
    var w := World(Empty, map[], map[]);
    var w2 := w.(s := Empty.(members := map[(t, a) := ADMIN, (t, b) := ADMIN]));
    TwoMoves(w, Whole(Post(t, a, ADMIN)), Whole(Post(t, b, ADMIN)));
    assert map[(t, a) := ADMIN][(t, b) := ADMIN] == w2.s.members;
    RaceEnds(w2, t, a, b);
    Concat(w, [Whole(Post(t, a, ADMIN)), Whole(Post(t, b, ADMIN))],
      [Check(0, Dismiss(b, t, a)), Check(1, Dismiss(a, t, b))] + ([Look(0), Look(1)] + [Write(0), Write(1)]));
  }

  lemma RaceEnds(w: World, t: string, a: string, b: string)
    requires a != b && w == World(Empty.(members := map[(t, a) := ADMIN, (t, b) := ADMIN]), map[], map[])
    ensures
      var run := [Check(0, Dismiss(b, t, a)), Check(1, Dismiss(a, t, b))]
                 + ([Look(0), Look(1)] + [Write(0), Write(1)]);
      Legal(w, run) && With(AfterMoves(w, run).s, t, ADMIN) == {}
  {
    var n := |With(w.s, t, ADMIN)|;
    WithAt(w.s, t, ADMIN, a);
    WithAt(w.s, t, ADMIN, b);
    SubsetCard({a, b}, With(w.s, t, ADMIN));
    var w2 := w.(counted := map[0 := Counting(Dismiss(b, t, a), n), 1 := Counting(Dismiss(a, t, b), n)]);
    TwoMoves(w, Check(0, Dismiss(b, t, a)), Check(1, Dismiss(a, t, b)));
    assert map[0 := Counting(Dismiss(b, t, a), n)][1 := Counting(Dismiss(a, t, b), n)] == w2.counted;
    var w4 := w.(waiting := map[0 := Dismiss(b, t, a), 1 := Dismiss(a, t, b)]);
    TwoMoves(w2, Look(0), Look(1));
    assert w2.counted - {0} - {1} == map[] && map[0 := Dismiss(b, t, a)][1 := Dismiss(a, t, b)] == w4.waiting;
    TwoMoves(w4, Write(0), Write(1));
    assert AfterMoves(w4, [Write(0), Write(1)]).s.members == map[];
    Concat(w2, [Look(0), Look(1)], [Write(0), Write(1)]);
    Concat(w, [Check(0, Dismiss(b, t, a)), Check(1, Dismiss(a, t, b))], [Look(0), Look(1)] + [Write(0), Write(1)]);
  }

  /** A new member is added with a role that does not exist yet; meanwhile the same user becomes the
      tenant's admin and the role is created; the late write takes the admin away. */
  lemma LateRoleRace(t: string, u: string)
    ensures
      var w := World(Empty, map[], map[]);
      var early := [Check(0, Join(t, u, "auditor")), Whole(Post(t, u, ADMIN))];
      var late := [NewRole(t, "auditor", {}, true), Write(0)];
      && Legal(w, early) && Legal(w, early + late)
      && With(AfterMoves(w, early).s, t, ADMIN) == {u} && With(AfterMoves(w, early + late).s, t, ADMIN) == {}
  {
    var w := World(Empty, map[], map[]);
    var w2 := World(Empty.(members := map[(t, u) := ADMIN]), map[], map[0 := Join(t, u, "auditor")]);
    TwoMoves(w, Check(0, Join(t, u, "auditor")), Whole(Post(t, u, ADMIN)));
    assert CustomOf(w2.s, t) == {};
    TwoMoves(w2, NewRole(t, "auditor", {}, true), Write(0));
    var w4 := AfterMoves(w2, [NewRole(t, "auditor", {}, true), Write(0)]);
    assert w4.s.members == map[(t, u) := "auditor"];
    forall x ensures x in With(w2.s, t, ADMIN) <==> x == u { WithAt(w2.s, t, ADMIN, x); }
    Concat(w, [Check(0, Join(t, u, "auditor")), Whole(Post(t, u, ADMIN))],
      [NewRole(t, "auditor", {}, true), Write(0)]);
  }
}
