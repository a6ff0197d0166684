/**
 The hash-chained audit log (fusion_identity/store.py, `_chain_hash`, `_audit_fields`,
 `append_audit`, `verify_audit_chain`).

 Every record of a tenant is hashed together with the hash of the tenant's record before it;
 the first one follows "genesis". The log keeps the newest 100000 records of all tenants and
 an index of each tenant's last hash. SHA-256 is an ideal hash: injective, and its hex digests
 are never "genesis" and hold no brace.
 */
module AuditChain {
  import opened Util
  import opened CanonicalJson

  const AUDIT_CAP := 100000
  const GENESIS := "genesis"

  /** The chained fields. `ts` is the rendered timestamp. */
  datatype Fields = Fields(
    tenant: string, user: Option<string>, jti: Option<string>, role: Option<string>,
    action: string, resource: Option<string>, detail: Json, ts: string)

  datatype Record = Record(id: nat, fields: Fields, chainHash: string, prevHash: string)

  type Hash = string -> string

  predicate NoBrace(s: string) {
    forall i :: 0 <= i < |s| ==> s[i] != '{'
  }

  ghost predicate Ideal(h: Hash) {
    && (forall x, y :: h(x) == h(y) ==> x == y)
    && (forall x :: h(x) != GENESIS && NoBrace(h(x)))
  }

  function OrNull(s: Option<string>): Json {
    match s case None => Null case Some(v) => Str(v)
  }

  /** The fields as JSON, keys in sorted order. */
  function FieldsJson(f: Fields): Json {
    Obj([Member("action", Str(f.action)), Member("detail", f.detail), Member("jti", OrNull(f.jti)),
         Member("resource", OrNull(f.resource)), Member("role", OrNull(f.role)), Member("tenant_id", Str(f.tenant)),
         Member("ts", Num(f.ts)), Member("user_id", OrNull(f.user))])
  }

  function ChainHash(h: Hash, prev: string, f: Fields): string {
    h(prev + Text(FieldsJson(f)))
  }

  predicate Renderable(f: Fields) {
    WellFormed(f.detail) && IsNumber(f.ts)
  }

  // ----- Verification of a list of rows -----

  datatype Verdict = Intact | BrokenAt(id: nat)

  function Verify(h: Hash, prev: string, rows: seq<Record>): Verdict
    decreases |rows|
  {
    if rows == [] then Intact
    else if ChainHash(h, prev, rows[0].fields) != rows[0].chainHash then BrokenAt(rows[0].id)
    else Verify(h, rows[0].chainHash, rows[1..])
  }

  function FinalHash(prev: string, rows: seq<Record>): string {
    if rows == [] then prev else Last(rows).chainHash
  }

  /** The rows of one tenant. */
  function Of(log: seq<Record>, tenant: string): seq<Record> {
    if log == [] then []
    else if Last(log).fields.tenant == tenant then Of(Init(log), tenant) + [Last(log)]
    else Of(Init(log), tenant)
  }

  lemma {:induction false} OfIff(log: seq<Record>, tenant: string, r: Record)
    ensures r in Of(log, tenant) <==> r in log && r.fields.tenant == tenant
  {
    if log != [] {
      OfIff(Init(log), tenant, r);
      assert log == Init(log) + [Last(log)];
    }
  }

  /** `name: value` and what follows, the name in quotes. */
  function Named(name: string, value: Json, k: string): string {
    ['"'] + Chars(name, [':'] + Text(value, k))
  }

  lemma MemberText(members: seq<Member>, i: nat, k: string)
    requires i < |members|
    ensures Members(members[i..], k) ==
            Named(members[i].name, members[i].value,
                  if i == |members| - 1 then k else "," + Members(members[i + 1..], k))
  {
    assert members[i..][1..] == members[i + 1..];
  }

  /** The eight fields under their own names, in sorted order, as they are written out. */
  function LastFour(f: Fields): string {
    Named("role", OrNull(f.role), "," +
      Named("tenant_id", Str(f.tenant), "," + Named("ts", Num(f.ts), "," + Named("user_id", OrNull(f.user), "}"))))
  }

  function AllEight(f: Fields): string {
    Named("action", Str(f.action), "," + Named("detail", f.detail, "," +
      Named("jti", OrNull(f.jti), "," + Named("resource", OrNull(f.resource), "," + LastFour(f)))))
  }

  lemma LastFields(f: Fields)
    ensures Members(FieldsJson(f).members[4..], "}") == LastFour(f)
  {
    var m := FieldsJson(f).members;
    MemberText(m, 7, "}");
    MemberText(m, 6, "}");
    MemberText(m, 5, "}");
    MemberText(m, 4, "}");
  }

  lemma FieldsText(f: Fields)
    ensures Members(FieldsJson(f).members, "}") == AllEight(f)
  {
    var m := FieldsJson(f).members;
    LastFields(f);
    MemberText(m, 3, "}");
    MemberText(m, 2, "}");
    MemberText(m, 1, "}");
    MemberText(m, 0, "}");
    assert m[0..] == m;
  }

  lemma ObjText(members: seq<Member>)
    ensures Text(Obj(members)) == "{" + Members(members, "}")
  {
    assert ['}'] + "" == "}";
  }

  /** What is hashed: the hash before, and behind it the fields. */
  lemma PayloadIs(h: Hash, prev: string, f: Fields)
    ensures ChainHash(h, prev, f) == h(prev + ("{" + AllEight(f)))
  {
    FieldsText(f);
    ObjText(FieldsJson(f).members);
  }

  // ----- Tamper evidence -----

  lemma SplitAtBrace(p: string, q: string, a: string, b: string)
    requires NoBrace(p) && NoBrace(q) && a != "" && b != "" && a[0] == b[0] == '{'
    requires p + a == q + b
    ensures p == q && a == b
  {
    assert (p + a)[|p|] == '{' && (q + b)[|q|] == '{';
    assert forall i :: 0 <= i < |p| ==> (p + a)[i] == p[i];
    assert forall i :: 0 <= i < |q| ==> (q + b)[i] == q[i];
    SplitAt(p, q, a, b);
  }

  lemma FieldsInjective(f: Fields, g: Fields)
    requires Renderable(f) && Renderable(g) && Text(FieldsJson(f)) == Text(FieldsJson(g))
    ensures f == g
  {
    var a, b := FieldsJson(f), FieldsJson(g);
    FieldsValid(f);
    FieldsValid(g);
    TextUnique(a, b, "", "");
    assert forall i :: 0 <= i < 8 ==> a.members[i] == b.members[i];
    assert a.members[0].value == b.members[0].value && a.members[1].value == b.members[1].value;
    assert a.members[2].value == b.members[2].value && a.members[3].value == b.members[3].value;
    assert a.members[4].value == b.members[4].value && a.members[5].value == b.members[5].value;
    assert a.members[6].value == b.members[6].value && a.members[7].value == b.members[7].value;
  }

  lemma FieldsValid(f: Fields)
    requires Renderable(f)
    ensures WellFormed(FieldsJson(f))
  {
  }

  /** One link: a hash determines the hash before it and every chained field. */
  lemma LinkUnique(h: Hash, p: string, q: string, f: Fields, g: Fields)
    requires Ideal(h) && NoBrace(p) && NoBrace(q) && Renderable(f) && Renderable(g)
    requires ChainHash(h, p, f) == ChainHash(h, q, g)
    ensures p == q && f == g
  {
    var a, b := Text(FieldsJson(f)), Text(FieldsJson(g));
    assert a[0] == b[0] == '{';
    assert h(p + a) == h(q + b);
    SplitAtBrace(p, q, a, b);
    FieldsInjective(f, g);
  }

  lemma {:induction false} VerifySnoc(h: Hash, prev: string, rows: seq<Record>, r: Record)
    ensures Verify(h, prev, rows + [r]) == Intact <==>
              Verify(h, prev, rows) == Intact && ChainHash(h, FinalHash(prev, rows), r.fields) == r.chainHash
    decreases |rows|
  {
    if rows == [] {
      assert ([r])[1..] == [] && rows + [r] == [r];
    } else {
      assert (rows + [r])[1..] == rows[1..] + [r];
      VerifySnoc(h, rows[0].chainHash, rows[1..], r);
    }
  }

  predicate AllRenderable(rows: seq<Record>) {
    forall i :: 0 <= i < |rows| ==> Renderable(rows[i].fields)
  }

  /** Rows that verify end in a digest. */
  lemma FinalIsDigest(h: Hash, rows: seq<Record>)
    requires Ideal(h) && Verify(h, GENESIS, rows) == Intact
    ensures NoBrace(FinalHash(GENESIS, rows))
    ensures rows != [] ==> FinalHash(GENESIS, rows) != GENESIS
    ensures rows != [] ==> Verify(h, GENESIS, Init(rows)) == Intact
                           && FinalHash(GENESIS, rows) ==
                             ChainHash(h, FinalHash(GENESIS, Init(rows)), Last(rows).fields)
  {
    if rows != [] {
      assert rows == Init(rows) + [Last(rows)];
      VerifySnoc(h, GENESIS, Init(rows), Last(rows));
    }
  }

  /** Two lists of rows that both verify and end in the same hash agree in length, in every
      chained field and in every hash, whatever their ids and stored previous hashes say. */
  lemma {:induction false} TamperEvident(h: Hash, a: seq<Record>, b: seq<Record>)
    requires Ideal(h) && AllRenderable(a) && AllRenderable(b)
    requires Verify(h, GENESIS, a) == Intact && Verify(h, GENESIS, b) == Intact
    requires FinalHash(GENESIS, a) == FinalHash(GENESIS, b)
    ensures |a| == |b|
    ensures forall i :: 0 <= i < |a| ==> a[i].fields == b[i].fields && a[i].chainHash == b[i].chainHash
  {
    FinalIsDigest(h, a);
    FinalIsDigest(h, b);
    if a != [] && b != [] {
      FinalIsDigest(h, Init(a));
      FinalIsDigest(h, Init(b));
      LinkUnique(h, FinalHash(GENESIS, Init(a)), FinalHash(GENESIS, Init(b)), Last(a).fields, Last(b).fields);
      TamperEvident(h, Init(a), Init(b));
      forall i | 0 <= i < |a| ensures a[i].fields == b[i].fields && a[i].chainHash == b[i].chainHash {
        if i < |a| - 1 {
          assert Init(a)[i] == a[i] && Init(b)[i] == b[i];
        }
      }
    }
  }

  // ----- The log -----

  function TailHash(log: seq<Record>, tenant: string): string {
    FinalHash(GENESIS, Of(log, tenant))
  }

  /** The record an append makes, after the full history of appends. */
  function NextRecord(h: Hash, history: seq<Record>, f: Fields): Record {
    Record(|history| + 1, f, ChainHash(h, TailHash(history, f.tenant), f), TailHash(history, f.tenant))
  }

  /** Every record was made by an append. */
  predicate Appended(h: Hash, history: seq<Record>) {
    history != [] ==> Appended(h, Init(history)) && Last(history) == NextRecord(h, Init(history), Last(history).fields)
  }

  /** What the cap leaves of a history. */
  function Retained(history: seq<Record>): seq<Record> {
    if |history| > AUDIT_CAP then history[|history| - AUDIT_CAP..] else history
  }

  /** The tail index holds the hash of each tenant's latest append. */
  ghost predicate Indexed(history: seq<Record>, tails: map<string, string>) {
    forall t :: TailHash(history, t) == if t in tails then tails[t] else GENESIS
  }

  ghost predicate LogOk(h: Hash, history: seq<Record>, audit: seq<Record>, tails: map<string, string>, seqNo: nat) {
    Appended(h, history) && audit == Retained(history) && seqNo == |history| && Indexed(history, tails)
  }

  class AuditLog {
    const hash: Hash
    var audit: seq<Record>
    var tails: map<string, string>
    var seqNo: nat
    ghost var history: seq<Record>

    ghost predicate Valid()
      reads this
    {
      LogOk(hash, history, audit, tails, seqNo)
    }

    constructor (hash: Hash)
      ensures Valid() && history == [] && this.hash == hash
    {
      this.hash, audit, tails, seqNo, history := hash, [], map[], 0, [];
    }

    method AppendAudit(f: Fields) returns (rec: Record)
      requires Valid()
      modifies this
      ensures Valid()
      ensures rec == NextRecord(hash, old(history), f) && history == old(history) + [rec]
    {
      var prev := if f.tenant in tails then tails[f.tenant] else GENESIS;
      assert prev == TailHash(history, f.tenant);
      rec := Record(seqNo + 1, f, ChainHash(hash, prev, f), prev);
      LogGrows(hash, history, audit, tails, seqNo, rec);
      var rows := audit + [rec];
      if |rows| > AUDIT_CAP {
        rows := rows[|rows| - AUDIT_CAP..];
      }
      seqNo, audit, tails, history := seqNo + 1, rows, tails[f.tenant := rec.chainHash], history + [rec];
    }

    /** The tenant's rows are in id order already, so sorting them by id changes nothing. */
    method VerifyAuditChain(tenant: string) returns (v: Verdict)
      requires Valid()
      ensures v == Verify(hash, GENESIS, Of(audit, tenant))
      ensures InOrder(Of(audit, tenant))
    {
      var rows := Of(audit, tenant);
      KeptInOrder(hash, history, tenant);
      var prev := GENESIS;
      var i := 0;
      while i < |rows|
        invariant 0 <= i <= |rows|
        invariant Verify(hash, GENESIS, rows) == Verify(hash, prev, rows[i..])
      {
        assert rows[i..][1..] == rows[i + 1..];
        if ChainHash(hash, prev, rows[i].fields) != rows[i].chainHash {
          return BrokenAt(rows[i].id);
        }
        prev := rows[i].chainHash;
        i := i + 1;
      }
      return Intact;
    }
  }

  lemma LogGrows(h: Hash, history: seq<Record>, audit: seq<Record>, tails: map<string, string>, seqNo: nat, rec: Record)
    requires LogOk(h, history, audit, tails, seqNo) && rec == NextRecord(h, history, rec.fields)
    ensures var longer := audit + [rec];
            LogOk(h, history + [rec], if |longer| > 100_000 then longer[|longer| - 100_000..] else longer,
                  tails[rec.fields.tenant := rec.chainHash], seqNo + 1)
  {
    RetainedGrows(history, rec);
    IndexGrows(history, tails, rec);
    AppendedGrows(h, history, rec);
  }

  lemma TailGrows(history: seq<Record>, rec: Record, t: string)
    ensures TailHash(history + [rec], t) == if rec.fields.tenant == t then rec.chainHash else TailHash(history, t)
  {
    assert Init(history + [rec]) == history;
  }

  lemma IndexGrows(history: seq<Record>, tails: map<string, string>, rec: Record)
    requires Indexed(history, tails)
    ensures Indexed(history + [rec], tails[rec.fields.tenant := rec.chainHash])
  {
    forall t
      ensures TailHash(history + [rec], t) == if t == rec.fields.tenant then rec.chainHash else TailHash(history, t) {
      TailGrows(history, rec, t);
    }
  }

  lemma AppendedGrows(h: Hash, history: seq<Record>, rec: Record)
    requires Appended(h, history) && rec == NextRecord(h, history, rec.fields)
    ensures Appended(h, history + [rec])
  {
    assert Init(history + [rec]) == history;
  }

  lemma RetainedGrows(history: seq<Record>, rec: Record)
    ensures var longer := Retained(history) + [rec];
            Retained(history + [rec]) == if |longer| > 100_000 then longer[|longer| - 100_000..] else longer
  {
  }

  // ----- The verdict on every reachable log -----

  lemma {:induction false} OfConcat(a: seq<Record>, b: seq<Record>, t: string)
    ensures Of(a + b, t) == Of(a, t) + Of(b, t)
  {
    if b == [] {
      assert a + b == a;
    } else {
      assert Init(a + b) == a + Init(b);
      OfConcat(a, Init(b), t);
    }
  }

  lemma {:induction false} AppendedPrefix(h: Hash, history: seq<Record>, k: nat)
    requires Appended(h, history) && k <= |history|
    ensures Appended(h, history[..k])
  {
    if k < |history| {
      AppendedPrefix(h, Init(history), k);
      assert Init(history)[..k] == history[..k];
    } else {
      assert history[..k] == history;
    }
  }

  /** From any cut on, the rest of a tenant's rows verifies against the hash at the cut. */
  lemma {:induction false} RestVerifies(h: Hash, history: seq<Record>, k: nat, t: string)
    requires Appended(h, history) && k <= |history|
    ensures Verify(h, TailHash(history[..k], t), Of(history[k..], t)) == Intact
    ensures FinalHash(TailHash(history[..k], t), Of(history[k..], t)) == TailHash(history, t)
  {
    if k < |history| {
      var init, last := Init(history), Last(history);
      RestVerifies(h, init, k, t);
      assert init[..k] == history[..k] && Init(history[k..]) == init[k..];
      VerifySnoc(h, TailHash(history[..k], t), Of(init[k..], t), last);
    } else {
      assert history[..k] == history && history[k..] == [];
    }
  }

  lemma {:induction false} OfFirst(log: seq<Record>, t: string) returns (i: nat)
    requires Of(log, t) != []
    ensures i < |log| && log[i] == Of(log, t)[0] && log[i].fields.tenant == t && Of(log[..i], t) == []
  {
    if Of(Init(log), t) != [] {
      i := OfFirst(Init(log), t);
      assert Init(log)[..i] == log[..i];
    } else {
      i := |log| - 1;
    }
  }

  lemma {:induction false} RecordAt(h: Hash, history: seq<Record>, i: nat)
    requires Appended(h, history) && i < |history|
    ensures history[i] == NextRecord(h, history[..i], history[i].fields)
  {
    if i < |history| - 1 {
      RecordAt(h, Init(history), i);
      assert Init(history)[..i] == history[..i];
    }
  }

  /** The first retained row of a tenant was chained to what the cut removed. */
  lemma FirstAfterCut(h: Hash, history: seq<Record>, k: nat, t: string)
    requires Appended(h, history) && k <= |history| && Of(history[k..], t) != []
    ensures var r := Of(history[k..], t)[0];
            && r in history && r.fields.tenant == t
            && r.chainHash == ChainHash(h, TailHash(history[..k], t), r.fields)
  {
    var i := OfFirst(history[k..], t);
    assert history[k + i] == Of(history[k..], t)[0];
    RecordAt(h, history, k + i);
    TailAcross(history, k, i, t);
  }

  /** Rows of others do not move a tenant's tail. */
  lemma TailAcross(history: seq<Record>, k: nat, i: nat, t: string)
    requires k + i <= |history| && Of(history[k..][..i], t) == []
    ensures TailHash(history[..k + i], t) == TailHash(history[..k], t)
  {
    assert history[..k + i] == history[..k] + history[k..][..i];
    OfConcat(history[..k], history[k..][..i], t);
  }

  /** Rows chained to another hash fail at once when verified from "genesis". */
  lemma WrongStartBreaks(h: Hash, tail: string, rows: seq<Record>)
    requires Ideal(h) && tail != GENESIS && NoBrace(tail)
    requires rows != [] && Renderable(rows[0].fields) && rows[0].chainHash == ChainHash(h, tail, rows[0].fields)
    ensures Verify(h, GENESIS, rows) == BrokenAt(rows[0].id)
  {
    if ChainHash(h, GENESIS, rows[0].fields) == rows[0].chainHash {
      LinkUnique(h, GENESIS, tail, rows[0].fields, rows[0].fields);
    }
  }

  lemma CutBreaks(h: Hash, history: seq<Record>, k: nat, t: string)
    requires Ideal(h) && Appended(h, history) && k <= |history| && AllRenderable(history)
    requires Of(history[..k], t) != [] && Of(history[k..], t) != []
    ensures Verify(h, GENESIS, Of(history[k..], t)) == BrokenAt(Of(history[k..], t)[0].id)
  {
    FirstAfterCut(h, history, k, t);
    PrefixTail(h, history, k, t);
    WrongStartBreaks(h, TailHash(history[..k], t), Of(history[k..], t));
  }

  lemma PrefixTail(h: Hash, history: seq<Record>, k: nat, t: string)
    requires Ideal(h) && Appended(h, history) && k <= |history| && Of(history[..k], t) != []
    ensures TailHash(history[..k], t) != GENESIS && NoBrace(TailHash(history[..k], t))
  {
    AppendedPrefix(h, history, k);
    var p := history[..k];
    RestVerifies(h, p, 0, t);
    assert p[..0] == [] && p[0..] == p;
    FinalIsDigest(h, Of(p, t));
  }

  function Kept(history: seq<Record>, t: string): seq<Record> {
    Of(Retained(history), t)
  }

  /** After any run of appends, the verifier calls a tenant's log intact exactly when nothing of
      it is retained or its first record still is; otherwise it reports the first retained row. */
  lemma ExactVerdict(h: Hash, history: seq<Record>, t: string)
    requires Ideal(h) && Appended(h, history) && AllRenderable(history)
    ensures var kept, all := Kept(history, t), Of(history, t);
            Verify(h, GENESIS, kept) ==
              if kept == [] || (all != [] && kept[0] == all[0]) then Intact else BrokenAt(kept[0].id)
    ensures Kept(history, t) != [] && Of(history, t) != [] && Kept(history, t)[0] == Of(history, t)[0] ==>
            Kept(history, t) == Of(history, t)
  {
    var k := |history| - |Retained(history)|;
    assert Retained(history) == history[k..];
    if Of(history[..k], t) == [] {
      WholeVerdict(h, history, k, t);
    } else if Of(history[k..], t) != [] {
      CutBreaks(h, history, k, t);
      FirstIsCut(h, history, k, t);
    }
  }

  /** Nothing of the tenant was cut: its rows are all there and verify. */
  lemma WholeVerdict(h: Hash, history: seq<Record>, k: nat, t: string)
    requires Appended(h, history) && k <= |history| && Of(history[..k], t) == []
    ensures Of(history[k..], t) == Of(history, t) && Verify(h, GENESIS, Of(history, t)) == Intact
  {
    assert history == history[..k] + history[k..];
    OfConcat(history[..k], history[k..], t);
    RestVerifies(h, history, k, t);
  }

  /** Something was cut: the first row left is not the tenant's first. */
  lemma FirstIsCut(h: Hash, history: seq<Record>, k: nat, t: string)
    requires Appended(h, history) && k <= |history| && Of(history[..k], t) != [] && Of(history[k..], t) != []
    ensures Of(history, t) != [] && Of(history[k..], t)[0] != Of(history, t)[0]
  {
    assert history == history[..k] + history[k..];
    OfConcat(history[..k], history[k..], t);
    OfIds(h, history, t);
    assert Of(history, t)[|Of(history[..k], t)|] == Of(history[k..], t)[0];
  }

  /** What an append of another tenant does to the retained rows of a tenant: nothing, unless the
      log is full and its oldest row is of that tenant. */
  lemma OtherAppendKeeps(history: seq<Record>, rec: Record, t: string)
    requires rec.fields.tenant != t
    ensures Of(history + [rec], t) == Of(history, t)
    ensures Kept(history + [rec], t) ==
              if |history| >= 100_000 && Retained(history)[0].fields.tenant == t && Kept(history, t) != []
              then Kept(history, t)[1..] else Kept(history, t)
    ensures |history| >= 100_000 && Retained(history)[0].fields.tenant == t ==>
              Kept(history, t) != [] && Kept(history, t)[0] == Retained(history)[0]
  {
    var kept := Retained(history);
    assert Init(history + [rec]) == history;
    if |history| >= 100_000 {
      assert Retained(history + [rec]) == kept[1..] + [rec];
      assert kept == [kept[0]] + kept[1..];
      OfConcat([kept[0]], kept[1..], t);
      OfConcat(kept[1..], [rec], t);
      OfOne(kept[0], t);
      OfOne(rec, t);
    } else {
      assert Retained(history + [rec]) == kept + [rec];
      OfConcat(kept, [rec], t);
      OfOne(rec, t);
    }
  }

  lemma OfOne(r: Record, t: string)
    ensures Of([r], t) == if r.fields.tenant == t then [r] else []
  {
    assert Init([r]) == [];
  }

  lemma {:induction false} OfIds(h: Hash, history: seq<Record>, t: string)
    requires Appended(h, history)
    ensures forall i, j :: 0 <= i < j < |Of(history, t)| ==> Of(history, t)[i].id < Of(history, t)[j].id
    ensures forall i :: 0 <= i < |Of(history, t)| ==> Of(history, t)[i].id <= |history|
  {
    if history != [] {
      OfIds(h, Init(history), t);
    }
  }

  /** An append of another tenant leaves a tenant's verdict alone exactly when it evicts none of
      the tenant's rows, or the only one the tenant ever had. */
  lemma OtherAppendVerdictIff(h: Hash, history: seq<Record>, f: Fields, t: string)
    requires Ideal(h) && Appended(h, history) && AllRenderable(history) && Renderable(f) && f.tenant != t
    ensures var longer := history + [NextRecord(h, history, f)];
            Verify(h, GENESIS, Kept(longer, t)) == Verify(h, GENESIS, Kept(history, t))
            <==> (|history| < 100_000 || Retained(history)[0].fields.tenant != t
                  || |Of(history, t)| == 1)
  {
    var rec := NextRecord(h, history, f);
    var longer := history + [rec];
    AppendedGrows(h, history, rec);
    OtherAppendKeeps(history, rec, t);
    ExactVerdict(h, history, t);
    ExactVerdict(h, longer, t);
    OfIds(h, history, t);
    KeptIsSuffix(history, t);
  }

  lemma KeptIsSuffix(history: seq<Record>, t: string)
    ensures |Kept(history, t)| <= |Of(history, t)|
    ensures Kept(history, t) == Of(history, t)[|Of(history, t)| - |Kept(history, t)|..]
  {
    var k := |history| - |Retained(history)|;
    assert history == history[..k] + history[k..] && Retained(history) == history[k..];
    OfConcat(history[..k], history[k..], t);
  }

  predicate InOrder(rows: seq<Record>) {
    forall i, j :: 0 <= i < j < |rows| ==> rows[i].id < rows[j].id
  }

  lemma KeptInOrder(h: Hash, history: seq<Record>, t: string)
    requires Appended(h, history)
    ensures InOrder(Kept(history, t))
  {
    OfIds(h, history, t);
    KeptIsSuffix(history, t);
  }

  // ----- A full log -----

  function Grown(h: Hash, log: seq<Record>, f: Fields): seq<Record> {
    log + [NextRecord(h, log, f)]
  }

  /** n appends: two of one tenant, and then another tenant's. */
  function Filled(h: Hash, n: nat, f: Fields, g: Fields): seq<Record> {
    if n == 0 then [] else Grown(h, Filled(h, n - 1, f, g), if n <= 2 then f else g)
  }

  /** A log made by appends with as many records, and as many of a tenant, as said. */
  predicate Made(h: Hash, log: seq<Record>, f: Fields, size: nat, own: nat) {
    && Appended(h, log) && AllRenderable(log) && |log| == size && |Of(log, f.tenant)| == own
    && (size > 0 ==> log[0].fields.tenant == f.tenant)
  }

  lemma GrownIsMade(h: Hash, log: seq<Record>, f: Fields, e: Fields, size: nat, own: nat)
    requires Made(h, log, f, size, own) && Renderable(e) && (size == 0 ==> e.tenant == f.tenant)
    ensures Made(h, Grown(h, log, e), f, size + 1, if e.tenant == f.tenant then own + 1 else own)
  {
    var rec := NextRecord(h, log, e);
    AppendedGrows(h, log, rec);
    OfConcat(log, [rec], f.tenant);
    OfOne(rec, f.tenant);
  }

  lemma NothingMade(h: Hash, f: Fields)
    ensures Made(h, [], f, 0, 0)
  {
  }

  lemma {:induction false} FilledIsMade(h: Hash, n: nat, f: Fields, g: Fields)
    requires Renderable(f) && Renderable(g) && f.tenant != g.tenant
    ensures Made(h, Filled(h, n, f, g), f, n, Min(n, 2))
  {
    if n > 0 {
      FilledIsMade(h, n - 1, f, g);
      var before := Filled(h, n - 1, f, g);
      if n <= 2 {
        GrownIsMade(h, before, f, f, n - 1, n - 1);
      } else {
        GrownIsMade(h, before, f, g, n - 1, 2);
      }
    } else {
      NothingMade(h, f);
    }
  }

  /** Such an eviction is real: the log is full, its oldest record is one of the two of a tenant, and
      another tenant's next append turns the tenant's verdict. */
  lemma FullLogBreaks(h: Hash, f: Fields, g: Fields)
    requires Ideal(h) && Renderable(f) && Renderable(g) && f.tenant != g.tenant
    ensures
      var log := Filled(h, 100_000, f, g);
      var longer := Grown(h, log, g);
      && Appended(h, longer)
      && Verify(h, GENESIS, Kept(log, f.tenant)) == Intact && Verify(h, GENESIS, Kept(longer, f.tenant)) != Intact
  {
    var log := Filled(h, 100_000, f, g);
    FilledIsMade(h, 100_000, f, g);
    AppendedGrows(h, log, NextRecord(h, log, g));
    WholeVerdict(h, log, 0, f.tenant);
    assert log[0..] == log && Retained(log) == log;
    OtherAppendVerdictIff(h, log, g, f.tenant);
  }
}
