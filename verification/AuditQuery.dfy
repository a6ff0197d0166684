/**
 The business-event query over the audit log (fusion_identity/store.py `list_audit`,
 fusion_identity/routes/audit.py `_biz_match` and `_biz_query`): the ledger of a tenant is
 walked newest first in pages of 1000 rows, at most 20 of them, until `limit` matches are found. While
 the query waits for a page, rows may be appended to the log, and its oldest ones evicted.
 */
module AuditQuery {
  import opened Util
  import opened CanonicalJson
  import opened AuditChain

  const BIZ_SOURCE := "business"
  const BIZ_PAGE := 1000
  const BIZ_MAX_PAGES := 20

  datatype Filter = Filter(actor: Option<string>, action: Option<string>, objectId: Option<string>,
                           traceId: Option<string>)

  /** Which rows to look at; `read` tells the time a rendered timestamp denotes. */
  datatype Range = Range(tenant: string, since: Option<real>, until: Option<real>, read: string -> real)

  function Get(members: seq<Member>, name: string): Option<Json> {
    if members == [] then None
    else if members[0].name == name then Some(members[0].value)
    else Get(members[1..], name)
  }

  predicate EndsWith(s: string, suffix: string) {
    |suffix| <= |s| && s[|s| - |suffix|..] == suffix
  }

  predicate Match(r: Record, q: Filter) {
    && r.fields.detail.Obj?
    && Get(r.fields.detail.members, "source") == Some(Str(BIZ_SOURCE))
    && (q.actor.Some? ==> r.fields.user == q.actor)
    && (q.action.Some? ==> EndsWith(r.fields.action, q.action.value))
    && (q.objectId.Some? ==> r.fields.resource == q.objectId)
    && (q.traceId.Some? ==> Get(r.fields.detail.members, "trace_id") == Some(Str(q.traceId.value)))
  }

  predicate InRange(r: Record, g: Range) {
    && r.fields.tenant == g.tenant
    && (g.since.Some? ==> g.since.value <= g.read(r.fields.ts))
    && (g.until.Some? ==> g.read(r.fields.ts) <= g.until.value)
  }

  /** The rows in range, newest first. */
  function NewestFirst(log: seq<Record>, g: Range): seq<Record> {
    if log == [] then []
    else if InRange(Last(log), g) then [Last(log)] + NewestFirst(Init(log), g)
    else NewestFirst(Init(log), g)
  }

  /** The rows below a cursor. */
  function Below(rows: seq<Record>, cursor: Option<nat>): seq<Record> {
    if rows == [] then []
    else if cursor.Some? && rows[0].id >= cursor.value then Below(rows[1..], cursor)
    else [rows[0]] + Below(rows[1..], cursor)
  }

  function Take<T>(s: seq<T>, n: nat): seq<T> {
    if n <= |s| then s[..n] else s
  }

  function Matches(rows: seq<Record>, q: Filter): seq<Record> {
    if rows == [] then []
    else Matches(Init(rows), q) + if Match(Last(rows), q) then [Last(rows)] else []
  }

  // ----- What a query asks for, in terms of the rows' own fields -----

  /** A row of the tenant, from `since` to `until`, both included. */
  predicate Due(r: Record, g: Range) {
    var time := g.read(r.fields.ts);
    && r.fields.tenant == g.tenant
    && (g.since == None || time >= g.since.value) && (g.until == None || time <= g.until.value)
  }

  predicate Before(r: Record, cursor: Option<nat>) {
    cursor == None || r.id < cursor.value
  }

  predicate NoneNamed(members: seq<Member>, name: string) {
    forall j :: 0 <= j < |members| ==> members[j].name != name
  }

  /** The first member of a name has this value. */
  ghost predicate Says(members: seq<Member>, name: string, value: Json) {
    exists i :: 0 <= i < |members| && members[i] == Member(name, value) && NoneNamed(members[..i], name)
  }

  /** A business event by the actor, with an action that ends so, on the object, in the trace. */
  ghost predicate Meant(r: Record, q: Filter) {
    && r.fields.detail.Obj? && Says(r.fields.detail.members, "source", Str("business"))
    && (q.actor == None || q.actor == r.fields.user)
    && (q.action == None || exists before: string :: r.fields.action == before + q.action.value)
    && (q.objectId == None || q.objectId == r.fields.resource)
    && (q.traceId == None || Says(r.fields.detail.members, "trace_id", Str(q.traceId.value)))
  }

  lemma {:induction false} GetIs(members: seq<Member>, name: string, value: Json)
    ensures Get(members, name) == Some(value) <==> Says(members, name, value)
  {
    if members != [] {
      GetIs(members[1..], name, value);
      if members[0].name == name {
        assert members[0] == Member(name, members[0].value);
      } else {
        GetLater(members, name, value);
      }
    }
  }

  lemma GetLater(members: seq<Member>, name: string, value: Json)
    requires members != [] && members[0].name != name
    ensures Says(members, name, value) <==> Says(members[1..], name, value)
  {
    var rest := members[1..];
    if Says(members, name, value) {
      var i :| 0 <= i < |members| && members[i] == Member(name, value) && NoneNamed(members[..i], name);
      assert rest[i - 1] == members[i] && rest[..i - 1] == members[..i][1..];
    }
    if Says(rest, name, value) {
      var i :| 0 <= i < |rest| && rest[i] == Member(name, value) && NoneNamed(rest[..i], name);
      assert members[i + 1] == rest[i] && members[..i + 1] == [members[0]] + rest[..i];
    }
  }

  lemma EndsWithIs(s: string, suffix: string)
    ensures EndsWith(s, suffix) <==> exists before: string :: s == before + suffix
  {
    if EndsWith(s, suffix) { assert s == s[..|s| - |suffix|] + suffix; }
  }

  lemma MeantIsMatch(r: Record, q: Filter)
    ensures Match(r, q) <==> Meant(r, q)
  {
    if r.fields.detail.Obj? {
      GetIs(r.fields.detail.members, "source", Str("business"));
      if q.traceId.Some? { GetIs(r.fields.detail.members, "trace_id", Str(q.traceId.value)); }
    }
    if q.action.Some? { EndsWithIs(r.fields.action, q.action.value); }
  }

  lemma {:induction false} NewestFirstIff(log: seq<Record>, g: Range, r: Record)
    ensures r in NewestFirst(log, g) <==> r in log && Due(r, g)
  {
    if log != [] {
      NewestFirstIff(Init(log), g, r);
      assert log == Init(log) + [Last(log)];
      assert InRange(Last(log), g) <==> Due(Last(log), g);
    }
  }

  lemma {:induction false} BelowIff(rows: seq<Record>, cursor: Option<nat>, r: Record)
    ensures r in Below(rows, cursor) <==> r in rows && Before(r, cursor)
  {
    if rows != [] {
      BelowIff(rows[1..], cursor, r);
      assert rows == [rows[0]] + rows[1..];
    }
  }

  lemma {:induction false} MatchesIff(rows: seq<Record>, q: Filter, r: Record)
    ensures r in Matches(rows, q) <==> r in rows && Meant(r, q)
  {
    if rows != [] {
      MatchesIff(Init(rows), q, r);
      assert rows == Init(rows) + [Last(rows)];
      MeantIsMatch(Last(rows), q);
    }
  }

  predicate IdOrder(log: seq<Record>) {
    forall i, j :: 0 <= i < j < |log| ==> log[i].id < log[j].id
  }

  predicate IdDescending(rows: seq<Record>) {
    forall i, j :: 0 <= i < j < |rows| ==> rows[i].id > rows[j].id
  }

  lemma {:induction false} NewestFirstDescends(log: seq<Record>, g: Range)
    requires IdOrder(log)
    ensures IdDescending(NewestFirst(log, g))
    ensures forall i :: 0 <= i < |NewestFirst(log, g)| ==> NewestFirst(log, g)[i] in log
  {
    if log != [] {
      NewestFirstDescends(Init(log), g);
      var rest := NewestFirst(Init(log), g);
      forall i | 0 <= i < |rest| ensures rest[i] in log && rest[i].id < Last(log).id {
        var k :| 0 <= k < |Init(log)| && Init(log)[k] == rest[i];
        assert log[k] == rest[i];
      }
    }
  }

  lemma {:induction false} BelowNone(rows: seq<Record>)
    ensures Below(rows, None) == rows
  {
    if rows != [] {
      BelowNone(rows[1..]);
    }
  }

  lemma {:induction false} BelowAll(rows: seq<Record>, cursor: nat)
    requires forall i :: 0 <= i < |rows| ==> rows[i].id < cursor
    ensures Below(rows, Some(cursor)) == rows
  {
    if rows != [] {
      BelowAll(rows[1..], cursor);
    }
  }

  /** The page after a row starts with the next one: no gap and no row twice. */
  lemma {:induction false} BelowRow(rows: seq<Record>, n: nat)
    requires IdDescending(rows) && 0 < n <= |rows|
    ensures Below(rows, Some(rows[n - 1].id)) == rows[n..]
  {
    if n == 1 {
      BelowAll(rows[1..], rows[0].id);
    } else {
      BelowRow(rows[1..], n - 1);
      assert rows[1..][n - 1..] == rows[n..];
    }
  }

  lemma {:induction false} MatchesConcat(a: seq<Record>, b: seq<Record>, q: Filter)
    ensures Matches(a + b, q) == Matches(a, q) + Matches(b, q)
  {
    if b == [] {
      assert a + b == a;
    } else {
      assert Init(a + b) == a + Init(b);
      MatchesConcat(a, Init(b), q);
    }
  }

  lemma MatchesPrefix(rows: seq<Record>, m: nat, n: nat, q: Filter)
    requires m <= n <= |rows|
    ensures Matches(rows[..m], q) <= Matches(rows[..n], q)
  {
    assert rows[..n] == rows[..m] + rows[m..n];
    MatchesConcat(rows[..m], rows[m..n], q);
  }

  lemma {:induction false} BelowDescends(rows: seq<Record>, cursor: Option<nat>)
    requires IdDescending(rows)
    ensures IdDescending(Below(rows, cursor))
    ensures forall x :: x in Below(rows, cursor) ==> x in rows
  {
    if rows != [] {
      BelowDescends(rows[1..], cursor);
      var rest := Below(rows[1..], cursor);
      forall i | 0 <= i < |rest| ensures rows[0].id > rest[i].id && rest[i] in rows {
        assert rest[i] in rows[1..];
        var j :| 0 <= j < |rows[1..]| && rows[1..][j] == rest[i];
        assert rows[j + 1] == rest[i];
      }
    }
  }

  lemma {:induction false} MatchesDescends(rows: seq<Record>, q: Filter)
    requires IdDescending(rows)
    ensures IdDescending(Matches(rows, q))
    ensures forall x :: x in Matches(rows, q) ==> x in rows
  {
    if rows != [] {
      MatchesDescends(Init(rows), q);
      var found := Matches(Init(rows), q);
      forall i | 0 <= i < |found| ensures found[i].id > Last(rows).id {
        assert found[i] in Init(rows);
        var j :| 0 <= j < |Init(rows)| && Init(rows)[j] == found[i];
        assert rows[j] == found[i];
      }
    }
  }

  /** What is not among the first comes after all of them. */
  predicate Beyond(out: seq<Record>, limit: nat, r: Record) {
    |out| == limit && forall x :: x in out ==> x.id > r.id
  }

  lemma TakeFirst(s: seq<Record>, n: nat, r: Record)
    requires IdDescending(s) && r in s
    ensures r in Take(s, n) || Beyond(Take(s, n), n, r)
  {
    var k :| 0 <= k < |s| && s[k] == r;
    if n <= k {
      forall x | x in Take(s, n) ensures x.id > r.id {
        var i :| 0 <= i < n && s[i] == x;
      }
    } else {
      assert Take(s, n)[k] == r;
    }
  }

  lemma PageDescends(log: seq<Record>, g: Range, limit: nat, cursor: Option<nat>)
    requires IdOrder(log)
    ensures IdDescending(Take(Below(NewestFirst(log, g), cursor), limit))
  {
    NewestFirstDescends(log, g);
    BelowDescends(NewestFirst(log, g), cursor);
  }

  /** A page: rows of the log that are due and before the cursor, newest first, and all of them unless so
      many newer ones are. */
  lemma PageIs(log: seq<Record>, g: Range, limit: nat, cursor: Option<nat>, r: Record)
    requires IdOrder(log)
    ensures
      var rows := Take(Below(NewestFirst(log, g), cursor), limit);
      && (r in rows ==> r in log && Due(r, g) && Before(r, cursor))
      && (r in log && Due(r, g) && Before(r, cursor) ==> r in rows || Beyond(rows, limit, r))
  {
    var all := NewestFirst(log, g);
    NewestFirstDescends(log, g);
    BelowDescends(all, cursor);
    NewestFirstIff(log, g, r);
    BelowIff(all, cursor, r);
    if r in Below(all, cursor) { TakeFirst(Below(all, cursor), limit, r); }
  }

  /** list_audit: one pass over the log in id order, then newest first. */
  method ListAudit(log: seq<Record>, g: Range, limit: nat, cursor: Option<nat>) returns (rows: seq<Record>)
    requires IdOrder(log)
    ensures rows == Take(Below(NewestFirst(log, g), cursor), limit)
    ensures |rows| <= limit && IdDescending(rows)
    ensures forall r :: r in rows ==> r in log && Due(r, g) && Before(r, cursor)
    ensures forall r :: r in log && Due(r, g) && Before(r, cursor) ==> r in rows || Beyond(rows, limit, r)
  {
    var newest: seq<Record> := [];
    var i := 0;
    while i < |log|
      invariant 0 <= i <= |log|
      invariant newest == Below(NewestFirst(log[..i], g), cursor)
    {
      var a := log[i];
      assert Init(log[..i + 1]) == log[..i];
      if a.fields.tenant == g.tenant
         && !(g.since.Some? && g.read(a.fields.ts) < g.since.value)
         && !(g.until.Some? && g.read(a.fields.ts) > g.until.value)
         && !(cursor.Some? && a.id >= cursor.value) {
        // appended here and brought to the front by the sort on descending ids
        newest := [a] + newest;
      }
      i := i + 1;
    }
    assert log[..i] == log;
    rows := if limit <= |newest| then newest[..limit] else newest;
    PageDescends(log, g, limit, cursor);
    forall r | r in rows || r in log
      ensures r in rows ==> r in log && Due(r, g) && Before(r, cursor)
      ensures r in log && Due(r, g) && Before(r, cursor) ==> r in rows || Beyond(rows, limit, r)
    {
      PageIs(log, g, limit, cursor, r);
    }
  }

  /** What the query may look at. */
  function Scanned(log: seq<Record>, g: Range): seq<Record> {
    Take(NewestFirst(log, g), BIZ_PAGE * BIZ_MAX_PAGES)
  }

  predicate Truncates(log: seq<Record>, g: Range, q: Filter, limit: nat) {
    |NewestFirst(log, g)| > BIZ_PAGE * (BIZ_MAX_PAGES - 1) && |Matches(Scanned(log, g), q)| < limit
  }

  // ----- The log moves on -----

  /** The log at a later page: its oldest `cut` rows are gone, and rows with larger ids have been appended. */
  predicate Later(log: seq<Record>, cut: nat, later: seq<Record>) {
    && cut <= |log| && |log| - cut <= |later| && later[..|log| - cut] == log[cut..] && IdOrder(later)
    && forall i, j :: 0 <= i < |log| && |log| - cut <= j < |later| ==> log[i].id < later[j].id
  }

  /** How many rows in range of a log are left without its oldest ones. */
  function LeftOf(log: seq<Record>, cut: nat, g: Range): nat
    requires cut <= |log|
  {
    |NewestFirst(log[cut..], g)|
  }

  lemma {:induction false} NewestConcat(a: seq<Record>, b: seq<Record>, g: Range)
    ensures NewestFirst(a + b, g) == NewestFirst(b, g) + NewestFirst(a, g)
  {
    if b == [] {
      assert a + b == a;
    } else {
      assert Init(a + b) == a + Init(b) && Last(a + b) == Last(b);
      NewestConcat(a, Init(b), g);
    }
  }

  /** What is left is what was newest. */
  lemma LeftIsPrefix(log: seq<Record>, cut: nat, g: Range)
    requires cut <= |log|
    ensures LeftOf(log, cut, g) <= |NewestFirst(log, g)|
    ensures NewestFirst(log[cut..], g) == NewestFirst(log, g)[..LeftOf(log, cut, g)]
  {
    assert log == log[..cut] + log[cut..];
    NewestConcat(log[..cut], log[cut..], g);
  }

  lemma LeftShrinks(log: seq<Record>, a: nat, b: nat, g: Range)
    requires a <= b <= |log|
    ensures LeftOf(log, b, g) <= LeftOf(log, a, g)
  {
    assert log[a..][b - a..] == log[b..];
    LeftIsPrefix(log[a..], b - a, g);
  }

  lemma {:induction false} BelowAbove(a: seq<Record>, b: seq<Record>, cursor: nat)
    requires forall i :: 0 <= i < |a| ==> a[i].id >= cursor
    ensures Below(a + b, Some(cursor)) == Below(b, Some(cursor))
  {
    if a == [] {
      assert a + b == b;
    } else {
      assert (a + b)[1..] == a[1..] + b;
      BelowAbove(a[1..], b, cursor);
    }
  }

  /** The rows appended since, in range and newest first. */
  function Added(log: seq<Record>, cut: nat, later: seq<Record>, g: Range): seq<Record>
    requires cut <= |log| && |log| - cut <= |later|
  {
    NewestFirst(later[|log| - cut..], g)
  }

  lemma LaterNewest(log: seq<Record>, cut: nat, later: seq<Record>, g: Range)
    requires Later(log, cut, later)
    ensures LeftOf(log, cut, g) <= |NewestFirst(log, g)|
    ensures NewestFirst(later, g) == Added(log, cut, later, g) + NewestFirst(log, g)[..LeftOf(log, cut, g)]
  {
    var added := later[|log| - cut..];
    assert later == log[cut..] + added;
    NewestConcat(log[cut..], added, g);
    LeftIsPrefix(log, cut, g);
  }

  /** Below a row of the first page's log, a later log has what is left of that log. */
  lemma LaterBelow(log: seq<Record>, cut: nat, later: seq<Record>, g: Range, n: nat)
    requires IdOrder(log) && Later(log, cut, later) && 0 < n <= |NewestFirst(log, g)|
    ensures
      var all := NewestFirst(log, g);
      var left := LeftOf(log, cut, g);
      Below(NewestFirst(later, g), Some(all[n - 1].id)) == if n <= left <= |all| then all[n..left] else []
  {
    var all := NewestFirst(log, g);
    NewestFirstDescends(log, g);
    LaterNewest(log, cut, later, g);
    AddedAbove(log, cut, later, g, all[n - 1]);
    BelowAbove(Added(log, cut, later, g), all[..LeftOf(log, cut, g)], all[n - 1].id);
    BelowPrefix(all, LeftOf(log, cut, g), n);
  }

  lemma BelowPrefix(all: seq<Record>, m: nat, n: nat)
    requires IdDescending(all) && m <= |all| && 0 < n <= |all|
    ensures Below(all[..m], Some(all[n - 1].id)) == if n <= m then all[n..m] else []
  {
    if n <= m {
      BelowRow(all[..m], n);
    } else {
      assert all[..m] + [] == all[..m];
      BelowAbove(all[..m], [], all[n - 1].id);
    }
  }

  lemma AddedAbove(log: seq<Record>, cut: nat, later: seq<Record>, g: Range, x: Record)
    requires Later(log, cut, later) && x in log
    ensures
      var added := Added(log, cut, later, g);
      forall i :: 0 <= i < |added| ==> added[i].id >= x.id
  {
    var rest := later[|log| - cut..];
    var k :| 0 <= k < |log| && log[k] == x;
    NewestFirstDescends(rest, g);
    var added := Added(log, cut, later, g);
    forall i | 0 <= i < |added| ensures added[i].id >= x.id {
      var j :| 0 <= j < |rest| && rest[j] == added[i];
      assert later[|log| - cut + j] == rest[j];
    }
  }

  /** A page after the first: it carries on with row n, up to what is left. */
  lemma PageRows(log: seq<Record>, cut: nat, later: seq<Record>, g: Range, n: nat, cursor: Option<nat>,
                 rows: seq<Record>)
    requires IdOrder(log) && Later(log, cut, later) && n <= |NewestFirst(log, g)|
    requires n == 0 ==> cut == 0 && later == log
    requires cursor == if n == 0 then None else Some(NewestFirst(log, g)[n - 1].id)
    requires rows == Take(Below(NewestFirst(later, g), cursor), BIZ_PAGE)
    ensures
      var all := NewestFirst(log, g);
      var left := LeftOf(log, cut, g);
      && left <= |all| && |rows| == (if n < left then Min(BIZ_PAGE, left - n) else 0)
      && n + |rows| <= |all| && rows == all[n..n + |rows|]
  {
    LeftIsPrefix(log, cut, g);
    if n == 0 {
      assert log[0..] == log;
      BelowNone(NewestFirst(log, g));
    } else {
      LaterBelow(log, cut, later, g, n);
    }
  }

  lemma MatchesOn(all: seq<Record>, n: nat, m: nat, q: Filter)
    requires n <= m <= |all|
    ensures Matches(all[..n], q) + Matches(all[n..m], q) == Matches(all[..m], q)
  {
    assert all[..m] == all[..n] + all[n..m];
    MatchesConcat(all[..n], all[n..m], q);
  }

  /** Every row in range has been looked at, or as many as the pages allow. */
  lemma AllScanned(log: seq<Record>, g: Range, n: nat)
    requires n == Min(BIZ_PAGE * BIZ_MAX_PAGES, |NewestFirst(log, g)|)
    ensures NewestFirst(log, g)[..n] == Scanned(log, g)
  {
  }

  lemma FullEnough(log: seq<Record>, g: Range, q: Filter, limit: nat, m: nat)
    requires m <= |Scanned(log, g)| && |Matches(NewestFirst(log, g)[..m], q)| >= limit
    ensures Take(Matches(NewestFirst(log, g)[..m], q), limit) == Take(Matches(Scanned(log, g), q), limit)
    ensures !Truncates(log, g, q, limit)
  {
    var scanned := Scanned(log, g);
    assert NewestFirst(log, g)[..m] == scanned[..m] && scanned[..|scanned|] == scanned;
    MatchesPrefix(scanned, m, |scanned|, q);
    TakeOfPrefix(Matches(scanned[..m], q), Matches(scanned, q), limit);
  }

  lemma TakeOfPrefix<T>(a: seq<T>, b: seq<T>, n: nat)
    requires a <= b && n <= |a|
    ensures Take(a, n) == Take(b, n)
  {
    assert b[..|a|][..n] == b[..n];
  }

  /** _biz_match. */
  method BizMatch(a: Record, q: Filter) returns (ok: bool)
    ensures ok == Match(a, q)
    ensures ok <==> Meant(a, q)
  {
    MeantIsMatch(a, q);
    var detail := a.fields.detail;
    if !detail.Obj? || Get(detail.members, "source") != Some(Str("business")) {
      return false;
    }
    if q.actor.Some? && a.fields.user != q.actor {
      return false;
    }
    if q.action.Some? && !EndsWith(a.fields.action, q.action.value) {
      return false;
    }
    if q.objectId.Some? && a.fields.resource != q.objectId {
      return false;
    }
    if q.traceId.Some? {
      return Get(detail.members, "trace_id") == Some(Str(q.traceId.value));
    }
    return true;
  }

  /** The rows of one page, until the limit is reached. */
  method ScanPage(rows: seq<Record>, q: Filter, limit: nat, found: seq<Record>) returns (out: seq<Record>, full: bool)
    requires |found| < limit
    ensures out == Take(found + Matches(rows, q), limit)
    ensures full <==> |found + Matches(rows, q)| >= limit
  {
    out := found;
    var i := 0;
    while i < |rows|
      invariant 0 <= i <= |rows|
      invariant out == found + Matches(rows[..i], q) && |out| < limit
    {
      assert Init(rows[..i + 1]) == rows[..i];
      var ok := BizMatch(rows[i], q);
      if ok {
        out := out + [rows[i]];
        if |out| >= limit {
          MatchesPrefix(rows, i + 1, |rows|, q);
          assert rows[..|rows|] == rows;
          TakeOfPrefix(found + Matches(rows[..i + 1], q), found + Matches(rows, q), limit);
          return out, true;
        }
      }
      i := i + 1;
    }
    assert rows[..i] == rows;
    return out, false;
  }

  /** The logs of the pages: each is the first one, without its oldest rows and with new ones. */
  predicate Moving(logs: seq<seq<Record>>, cuts: seq<nat>) {
    && |logs| == |cuts| == BIZ_MAX_PAGES && cuts[0] == 0 && IdOrder(logs[0])
    && (forall k :: 0 <= k < BIZ_MAX_PAGES ==> Later(logs[0], cuts[k], logs[k]))
    && (forall k :: 0 < k < BIZ_MAX_PAGES ==> cuts[k - 1] <= cuts[k])
  }

  /** Nothing that was in the log at the first page was evicted by the last. */
  predicate NothingLost(cuts: seq<nat>) {
    forall k :: 0 <= k < |cuts| ==> cuts[k] == 0
  }

  /** How far the query has come before a page: full pages, or everything that was left at the last one. */
  predicate Reached(logs: seq<seq<Record>>, cuts: seq<nat>, g: Range, page: nat, n: nat, cursor: Option<nat>)
    requires Moving(logs, cuts) && page <= BIZ_MAX_PAGES
  {
    var all := NewestFirst(logs[0], g);
    && n <= |all| && n <= BIZ_PAGE * page && (page > 0 ==> n > BIZ_PAGE * (page - 1))
    && (page > 0 && n < BIZ_PAGE * page ==> n >= LeftOf(logs[0], cuts[page - 1], g))
    && cursor == if n == 0 then None else Some(all[n - 1].id)
  }

  /** The next page, at its own instant. */
  method NextPage(logs: seq<seq<Record>>, ghost cuts: seq<nat>, g: Range, page: nat, ghost n: nat,
                  cursor: Option<nat>)
    returns (rows: seq<Record>)
    requires Moving(logs, cuts) && page < BIZ_MAX_PAGES && Reached(logs, cuts, g, page, n, cursor)
    ensures n + |rows| <= |NewestFirst(logs[0], g)| && rows == NewestFirst(logs[0], g)[n..n + |rows|]
    ensures rows == [] ==> n >= LeftOf(logs[0], cuts[page], g)
    ensures rows != [] ==> Reached(logs, cuts, g, page + 1, n + |rows|, Some(rows[|rows| - 1].id))
  {
    assert Later(logs[0], cuts[page], logs[page]);
    rows := ListAudit(logs[page], g, BIZ_PAGE, cursor);
    PageRows(logs[0], cuts[page], logs[page], g, n, cursor, rows);
    if page > 0 { LeftShrinks(logs[0], cuts[page - 1], cuts[page], g); }
  }

  /** What the query answers over a log that stays, but for appends. */
  predicate Undisturbed(log: seq<Record>, g: Range, q: Filter, limit: nat, out: seq<Record>, truncated: bool) {
    out == Take(Matches(Scanned(log, g), q), limit) && (truncated <==> Truncates(log, g, q, limit))
  }

  /** It ends because there are no more rows. */
  lemma AllSeen(log: seq<Record>, g: Range, q: Filter, limit: nat, n: nat)
    requires LeftOf(log, 0, g) <= n <= |NewestFirst(log, g)| && n <= BIZ_PAGE * (BIZ_MAX_PAGES - 1)
    requires |Matches(NewestFirst(log, g)[..n], q)| < limit
    ensures Undisturbed(log, g, q, limit, Matches(NewestFirst(log, g)[..n], q), false)
  {
    assert log[0..] == log;
    AllScanned(log, g, n);
  }

  /** It ends because there are no more pages. */
  lemma PagesUsedUp(log: seq<Record>, g: Range, q: Filter, limit: nat, n: nat)
    requires n <= |NewestFirst(log, g)| && BIZ_PAGE * (BIZ_MAX_PAGES - 1) < n <= BIZ_PAGE * BIZ_MAX_PAGES
    requires n < BIZ_PAGE * BIZ_MAX_PAGES ==> n >= LeftOf(log, 0, g)
    requires |Matches(NewestFirst(log, g)[..n], q)| < limit
    ensures Undisturbed(log, g, q, limit, Matches(NewestFirst(log, g)[..n], q), true)
  {
    assert log[0..] == log;
    AllScanned(log, g, n);
  }

  /** Only what was asked for: due rows of a log that are meant, newest first. */
  ghost predicate OnlyAsked(log: seq<Record>, g: Range, q: Filter, limit: nat, out: seq<Record>) {
    && |out| <= limit && IdDescending(out)
    && forall r :: r in out ==> r in log && Due(r, g) && Meant(r, q)
  }

  /** All that was asked for: every such row of a log, unless so many newer ones are there. */
  ghost predicate AllAsked(log: seq<Record>, g: Range, q: Filter, limit: nat, out: seq<Record>) {
    forall r :: r in log && Due(r, g) && Meant(r, q) ==> r in out || Beyond(out, limit, r)
  }

  lemma OnlyThat(log: seq<Record>, g: Range, q: Filter, limit: nat, n: nat)
    requires IdOrder(log) && n <= |NewestFirst(log, g)|
    ensures OnlyAsked(log, g, q, limit, Take(Matches(NewestFirst(log, g)[..n], q), limit))
  {
    var rows := NewestFirst(log, g)[..n];
    NewestFirstDescends(log, g);
    MatchesDescends(rows, q);
    forall r | r in Take(Matches(rows, q), limit) ensures r in log && Due(r, g) && Meant(r, q) {
      MatchesIff(rows, q, r);
      NewestFirstIff(log, g, r);
    }
  }

  lemma FirstMatches(all: seq<Record>, n: nat, q: Filter, limit: nat, r: Record)
    requires IdDescending(all) && n <= |all| && r in all && Meant(r, q)
    requires r in all[..n] || |Matches(all[..n], q)| >= limit
    ensures
      var out := Take(Matches(all[..n], q), limit);
      r in out || Beyond(out, limit, r)
  {
    MatchesDescends(all[..n], q);
    if r in all[..n] {
      MatchesIff(all[..n], q, r);
      TakeFirst(Matches(all[..n], q), limit, r);
    } else {
      var k :| 0 <= k < |all| && all[k] == r;
      forall x | x in Take(Matches(all[..n], q), limit) ensures x.id > r.id {
        assert x in all[..n];
      }
    }
  }

  /** A row that was left was looked at, or comes after those looked at when the limit was reached. */
  lemma LookedAt(log: seq<Record>, cut: nat, g: Range, q: Filter, limit: nat, n: nat, r: Record)
    requires IdOrder(log) && n <= |NewestFirst(log, g)| && cut <= |log|
    requires LeftOf(log, cut, g) <= n || |Matches(NewestFirst(log, g)[..n], q)| >= limit
    requires r in log[cut..] && Due(r, g) && Meant(r, q)
    ensures
      var out := Take(Matches(NewestFirst(log, g)[..n], q), limit);
      r in out || Beyond(out, limit, r)
  {
    var all := NewestFirst(log, g);
    var left := LeftOf(log, cut, g);
    NewestFirstDescends(log, g);
    NewestFirstIff(log[cut..], g, r);
    LeftIsPrefix(log, cut, g);
    PrefixIn(all, left, n, r);
    FirstMatches(all, n, q, limit, r);
  }

  lemma PrefixIn(all: seq<Record>, m: nat, n: nat, r: Record)
    requires m <= |all| && n <= |all| && r in all[..m]
    ensures r in all && (m <= n ==> r in all[..n])
  {
    var k :| 0 <= k < m && all[..m][k] == r;
    assert all[k] == r && (k < n ==> all[..n][k] == r);
  }

  lemma AllThat(log: seq<Record>, cut: nat, g: Range, q: Filter, limit: nat, n: nat)
    requires IdOrder(log) && n <= |NewestFirst(log, g)| && cut <= |log|
    requires LeftOf(log, cut, g) <= n || |Matches(NewestFirst(log, g)[..n], q)| >= limit
    ensures AllAsked(log[cut..], g, q, limit, Take(Matches(NewestFirst(log, g)[..n], q), limit))
  {
    var out := Take(Matches(NewestFirst(log, g)[..n], q), limit);
    forall r | r in log[cut..] && Due(r, g) && Meant(r, q) ensures r in out || Beyond(out, limit, r) {
      LookedAt(log, cut, g, q, limit, n, r);
    }
  }

  /**
   What the query over a log that moves on answers. It returns only what was asked for, as it was in the
   log at the first page. Unless it is truncated, it returns all of that which was not evicted before the
   last page it read, up to the limit. It looks at the `n` newest rows in range, and is truncated only
   after 20 pages and more than 19000 rows with too few matches. If nothing was evicted, whatever was
   appended, it returns the first matches among the newest 20000 rows in range, and is truncated exactly
   when more than 19000 are in range and those hold fewer than `limit` matches.
   */
  ghost predicate Answered(log: seq<Record>, cut: nat, lost: bool, g: Range, q: Filter, limit: nat,
                           out: seq<Record>, truncated: bool, n: nat)
    requires cut <= |log|
  {
    && n <= |NewestFirst(log, g)| && out == Take(Matches(NewestFirst(log, g)[..n], q), limit)
    && OnlyAsked(log, g, q, limit, out)
    && (truncated ==> |out| < limit && n > 19_000)
    && (!truncated ==> AllAsked(log[cut..], g, q, limit, out))
    && (!lost ==> Undisturbed(log, g, q, limit, out, truncated))
  }

  lemma EndsEmpty(log: seq<Record>, cut: nat, lost: bool, g: Range, q: Filter, limit: nat, n: nat)
    requires IdOrder(log) && cut <= |log| && n <= |NewestFirst(log, g)| && LeftOf(log, cut, g) <= n
    requires n <= 19_000 && |Matches(NewestFirst(log, g)[..n], q)| < limit && (!lost ==> cut == 0)
    ensures Answered(log, cut, lost, g, q, limit, Matches(NewestFirst(log, g)[..n], q), false, n)
  {
    if !lost { AllSeen(log, g, q, limit, n); }
    OnlyThat(log, g, q, limit, n);
    AllThat(log, cut, g, q, limit, n);
  }

  lemma EndsFull(log: seq<Record>, cut: nat, lost: bool, g: Range, q: Filter, limit: nat, n: nat)
    requires IdOrder(log) && cut <= |log| && n <= |NewestFirst(log, g)| && n <= |Scanned(log, g)|
    requires |Matches(NewestFirst(log, g)[..n], q)| >= limit
    ensures Answered(log, cut, lost, g, q, limit, Take(Matches(NewestFirst(log, g)[..n], q), limit), false, n)
  {
    FullEnough(log, g, q, limit, n);
    OnlyThat(log, g, q, limit, n);
    AllThat(log, cut, g, q, limit, n);
  }

  lemma EndsTruncated(log: seq<Record>, cut: nat, lost: bool, g: Range, q: Filter, limit: nat, n: nat)
    requires IdOrder(log) && cut <= |log| && n <= |NewestFirst(log, g)| && 19_000 < n <= 20_000
    requires !lost && n < 20_000 ==> LeftOf(log, 0, g) <= n
    requires |Matches(NewestFirst(log, g)[..n], q)| < limit
    ensures Answered(log, cut, lost, g, q, limit, Matches(NewestFirst(log, g)[..n], q), true, n)
  {
    if !lost { PagesUsedUp(log, g, q, limit, n); }
    OnlyThat(log, g, q, limit, n);
  }

  /** The query before a page: it has come so far, and found too few. */
  predicate SoFar(logs: seq<seq<Record>>, cuts: seq<nat>, g: Range, q: Filter, limit: nat, page: nat, n: nat,
                  cursor: Option<nat>, out: seq<Record>)
    requires Moving(logs, cuts) && page <= BIZ_MAX_PAGES
  {
    Reached(logs, cuts, g, page, n, cursor) && out == Matches(NewestFirst(logs[0], g)[..n], q) && |out| < limit
  }

  /** One round of the loop. */
  method OnePage(logs: seq<seq<Record>>, ghost cuts: seq<nat>, g: Range, q: Filter, limit: nat, page: nat,
                 ghost n: nat, cursor: Option<nat>, out: seq<Record>)
    returns (rows: seq<Record>, more: seq<Record>, full: bool)
    requires Moving(logs, cuts) && page < BIZ_MAX_PAGES && SoFar(logs, cuts, g, q, limit, page, n, cursor, out)
    ensures rows == [] ==> Answered(logs[0], cuts[page], !NothingLost(cuts), g, q, limit, out, false, n)
    ensures rows != [] && full ==>
              Answered(logs[0], cuts[page], !NothingLost(cuts), g, q, limit, more, false, n + |rows|)
    ensures rows != [] && !full ==>
              SoFar(logs, cuts, g, q, limit, page + 1, n + |rows|, Some(rows[|rows| - 1].id), more)
  {
    rows := NextPage(logs, cuts, g, page, n, cursor);
    if rows == [] {
      EndsEmpty(logs[0], cuts[page], !NothingLost(cuts), g, q, limit, n);
      return rows, out, false;
    }
    MatchesOn(NewestFirst(logs[0], g), n, n + |rows|, q);
    more, full := ScanPage(rows, q, limit, out);
    if full { EndsFull(logs[0], cuts[page], !NothingLost(cuts), g, q, limit, n + |rows|); }
  }

  /** The paged query, over a log that moves on between the pages. */
  method BizQuery(logs: seq<seq<Record>>, ghost cuts: seq<nat>, g: Range, q: Filter, limit: nat)
    returns (out: seq<Record>, truncated: bool, ghost n: nat, ghost last: nat)
    requires Moving(logs, cuts) && limit >= 1
    ensures OnlyAsked(logs[0], g, q, limit, out)
    ensures truncated ==> |out| < limit
    ensures last < BIZ_MAX_PAGES
    ensures Answered(logs[0], cuts[last], !NothingLost(cuts), g, q, limit, out, truncated, n)
  {
    out, n, last := [], 0, 0;
    var cursor: Option<nat> := None;
    var page := 0;
    while page < BIZ_MAX_PAGES
      invariant 0 <= page <= BIZ_MAX_PAGES && last < BIZ_MAX_PAGES
      invariant SoFar(logs, cuts, g, q, limit, page, n, cursor, out)
    {
      last := page;
      var rows, more, full := OnePage(logs, cuts, g, q, limit, page, n, cursor, out);
      if rows == [] {
        return out, false, n, last;
      }
      out := more;
      n := n + |rows|;
      if full {
        return out, false, n, last;
      }
      cursor := Some(rows[|rows| - 1].id);
      page := page + 1;
    }
    EndsTruncated(logs[0], cuts[last], !NothingLost(cuts), g, q, limit, n);
    return out, true, n, last;
  }

  lemma NumberedMoves(history: seq<Record>, from: nat, to: nat, start: nat) returns (cut: nat)
    requires from <= to <= |history| && from <= start <= |history|
    requires forall i :: 0 <= i < |history| ==> history[i].id == i + 1
    ensures Later(history[from..to], cut, history[start..])
  {
    cut := Min(to - from, start - from);
    if start <= to {
      assert history[start..][..to - start] == history[from..to][cut..];
    }
  }

  /** Appends to a log do this to it: at its cap it loses a row for every new one. */
  lemma HistoryMoves(h: Hash, history: seq<Record>, longer: seq<Record>) returns (cut: nat)
    requires Appended(h, longer) && history <= longer
    ensures Later(Retained(history), cut, Retained(longer))
  {
    AppendedInOrder(h, longer);
    var from := if |history| > 100_000 then |history| - 100_000 else 0;
    var start := if |longer| > 100_000 then |longer| - 100_000 else 0;
    assert Retained(history) == longer[from..|history|] && Retained(longer) == longer[start..];
    cut := NumberedMoves(longer, from, |history|, start);
  }

  /** Unless it says `truncated`, the query returns exactly the first `limit` matches of the whole
      ledger in range; if it does, it has seen at least 19001 rows. With at most 20000 rows in
      range the result is complete even then. */
  lemma PagedIsComplete(log: seq<Record>, g: Range, q: Filter, limit: nat)
    requires IdOrder(log)
    ensures !Truncates(log, g, q, limit) || |NewestFirst(log, g)| <= 20_000 ==>
              var out := Take(Matches(Scanned(log, g), q), limit);
              && out == Take(Matches(NewestFirst(log, g), q), limit)
              && OnlyAsked(log, g, q, limit, out) && AllAsked(log, g, q, limit, out)
    ensures Truncates(log, g, q, limit) ==> |Scanned(log, g)| >= 19001
  {
    var all := NewestFirst(log, g);
    OnlyThat(log, g, q, limit, |all|);
    assert log[0..] == log;
    AllThat(log, 0, g, q, limit, |all|);
    assert all[..|all|] == all;
    if |all| > BIZ_PAGE * BIZ_MAX_PAGES {
      MatchesPrefix(all, BIZ_PAGE * BIZ_MAX_PAGES, |all|, q);
      if !Truncates(log, g, q, limit) {
        TakeOfPrefix(Matches(Scanned(log, g), q), Matches(all, q), limit);
      }
    } else {
      assert Scanned(log, g) == all;
    }
  }

  /** A log that only appends made is in id order, before and after eviction. */
  lemma {:induction false} AppendedInOrder(h: Hash, history: seq<Record>)
    requires Appended(h, history)
    ensures IdOrder(history) && IdOrder(Retained(history))
    ensures forall i :: 0 <= i < |history| ==> history[i].id == i + 1
  {
    if history != [] {
      AppendedInOrder(h, Init(history));
      forall i | 0 <= i < |history| ensures history[i].id == i + 1 {
        if i < |history| - 1 { assert history[i] == Init(history)[i]; }
      }
    }
  }
}
