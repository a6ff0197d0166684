/**
 The lease log under every interleaving (fusion_identity/grpc_servicer.py:229-257, 299-307, 346-354).
 A handler waits between its calls, so each is a step of its own: the acquire script, its log entry,
 the verdict of the request window, and on a refusal the release script and its log entry; and for a
 lease given back, the release script and its log entry.

 A lease id is drawn at random and reaches its caller only with the grant, so callers name only leases
 that were handed out, or ids that do not exist.
 */
module LeaseLog {
  import opened Util
  import opened Servicer
  import LeaseSet
  import RpmWindow
  import QuotaPlane

  /** A handler between two of its calls. */
  datatype Phase =
    | Took(id: string) | Noted(id: string) | Rolling(id: string) | Undone(id: string) | GaveBack(id: string)

  /** How far a lease has come, and the handler that has it: acquired, logged, taken back by its own
      handler and that logged, handed out, given back and that logged. */
  datatype Stage = Unlogged(p: nat) | Private(p: nat) | Undoing(p: nat) | Closed | Out | Returning(p: nat) | Back

  datatype State = State(w: LeaseSet.World, handlers: map<nat, Phase>, log: seq<Entry>, stages: map<string, Stage>)

  const Start := State(LeaseSet.Start, map[], [], map[])

  datatype Act =
    | Take(p: nat, id: string, max: int)
    | Note(p: nat)
    | Decide(p: nat, ok: bool)
    | Undo(p: nat)
    | NoteUndo(p: nat)
    | Free(p: nat, id: string)
    | NoteFree(p: nat)
    | Trim

  datatype Timed = Timed(act: Act, ms: nat)

  /** Callers know a lease once it was handed out. */
  predicate Handed(stages: map<string, Stage>, id: string) {
    id in stages ==> stages[id].Out? || stages[id].Returning? || stages[id].Back?
  }

  predicate Enabled(s: State, a: Act, limit: nat) {
    match a
    case Take(p, id, max) => p !in s.handlers && id !in s.stages && id !in s.w.book && 0 < max <= limit
    case Note(p) => p in s.handlers && s.handlers[p].Took?
    case Decide(p, _) => p in s.handlers && s.handlers[p].Noted?
    case Undo(p) => p in s.handlers && s.handlers[p].Rolling?
    case NoteUndo(p) => p in s.handlers && s.handlers[p].Undone?
    case Free(p, id) => p !in s.handlers && Handed(s.stages, id)
    case NoteFree(p) => p in s.handlers && s.handlers[p].GaveBack?
    case Trim => true
  }

  /** The script of a step, if it has one. */
  function Script(s: State, e: Timed): Option<LeaseSet.Timed> {
    match e.act
    case Take(_, id, max) => Some(LeaseSet.Timed(LeaseSet.TryAcquire(id, max), e.ms))
    case Undo(p) => if p in s.handlers then Some(LeaseSet.Timed(LeaseSet.TryRelease(s.handlers[p].id), e.ms)) else None
    case Free(_, id) => Some(LeaseSet.Timed(LeaseSet.TryRelease(id), e.ms))
    case Trim => Some(LeaseSet.Timed(LeaseSet.TrimEnded, e.ms))
    case _ => None
  }

  function Written(s: State, e: Timed, ttl: nat): LeaseSet.World {
    match Script(s, e) case Some(op) => LeaseSet.Step(s.w, op, ttl) case None => s.w
  }

  function Result(s: State, e: Timed, ttl: nat): int {
    match Script(s, e) case Some(op) => LeaseSet.Result(s.w, op, ttl) case None => 0
  }

  function Next(s: State, tenant: string, e: Timed, ttl: nat, limit: nat): State
    requires Enabled(s, e.act, limit)
  {
    var w := Written(s, e, ttl);
    match e.act
    case Take(p, id, _) =>
      if Result(s, e, ttl) <= 0 then s.(w := w)
      else s.(w := w, handlers := s.handlers[p := Took(id)], stages := s.stages[id := Unlogged(p)])
    case Note(p) =>
      var id := s.handlers[p].id;
      s.(handlers := s.handlers[p := Noted(id)], stages := s.stages[id := Private(p)],
         log := s.log + [Entry(tenant, id, Acquired)])
    case Decide(p, ok) =>
      var id := s.handlers[p].id;
      if ok then s.(handlers := s.handlers - {p}, stages := s.stages[id := Out])
      else s.(handlers := s.handlers[p := Rolling(id)])
    case Undo(p) =>
      var id := s.handlers[p].id;
      s.(w := w, handlers := s.handlers[p := Undone(id)], stages := s.stages[id := Undoing(p)])
    case NoteUndo(p) =>
      var id := s.handlers[p].id;
      s.(handlers := s.handlers - {p}, stages := s.stages[id := Closed], log := s.log + [Entry(tenant, id, Freed)])
    case Free(p, id) =>
      if Result(s, e, ttl) < 0 then s.(w := w)
      else s.(w := w, handlers := s.handlers[p := GaveBack(id)], stages := s.stages[id := Returning(p)])
    case NoteFree(p) =>
      var id := s.handlers[p].id;
      s.(handlers := s.handlers - {p}, stages := s.stages[id := Back], log := s.log + [Entry(tenant, id, Freed)])
    case Trim => s.(w := w)
  }

  predicate Legal(s: State, tenant: string, run: seq<Timed>, now: nat, ttl: nat, limit: nat)
    decreases |run|
  {
    if run == [] then true
    else
      && now <= run[0].ms && Enabled(s, run[0].act, limit)
      && Legal(Next(s, tenant, run[0], ttl, limit), tenant, run[1..], run[0].ms, ttl, limit)
  }

  function After(s: State, tenant: string, run: seq<Timed>, now: nat, ttl: nat, limit: nat): State
    requires Legal(s, tenant, run, now, ttl, limit)
    decreases |run|
  {
    if run == [] then s else After(Next(s, tenant, run[0], ttl, limit), tenant, run[1..], run[0].ms, ttl, limit)
  }

  function Clock(run: seq<Timed>, now: nat): nat {
    if run == [] then now else run[|run| - 1].ms
  }

  // ----- Uninterrupted handlers -----

  lemma TakeIs(s: State, tenant: string, p: nat, id: string, max: int, ms: nat, ttl: nat, limit: nat)
    requires Enabled(s, Take(p, id, max), limit)
    ensures
      var s' := Next(s, tenant, Timed(Take(p, id, max), ms), ttl, limit);
      var r := LeaseSet.Acquire(s.w.l, ms, ttl, id, max);
      && s'.w.l == r.leases && s'.log == s.log
      && s'.handlers == if r.count <= 0 then s.handlers else s.handlers[p := Took(id)]
  {
    LeaseSet.StepRunsScript(s.w, LeaseSet.Timed(LeaseSet.TryAcquire(id, max), ms), ttl);
  }

  lemma UndoIs(s: State, tenant: string, p: nat, ms: nat, ttl: nat, limit: nat)
    requires Enabled(s, Undo(p), limit)
    ensures
      var s' := Next(s, tenant, Timed(Undo(p), ms), ttl, limit);
      && s'.w.l == LeaseSet.Release(s.w.l, ms, s.handlers[p].id).leases && s'.log == s.log
      && s'.handlers == s.handlers[p := Undone(s.handlers[p].id)]
  {
    LeaseSet.StepRunsScript(s.w, LeaseSet.Timed(LeaseSet.TryRelease(s.handlers[p].id), ms), ttl);
  }

  /** The steps after an acquire that succeeded, at one instant and with nothing in between. */
  function Deciding(s: State, tenant: string, p: nat, ok: bool, ms: nat, ttl: nat, limit: nat): State
    requires Enabled(s, Note(p), limit)
  {
    var s1 := Next(s, tenant, Timed(Note(p), ms), ttl, limit);
    var s2 := Next(s1, tenant, Timed(Decide(p, ok), ms), ttl, limit);
    if ok then s2
    else Next(Next(s2, tenant, Timed(Undo(p), ms), ttl, limit), tenant, Timed(NoteUndo(p), ms), ttl, limit)
  }

  lemma DecidingIs(s: State, tenant: string, p: nat, ok: bool, ms: nat, ttl: nat, limit: nat)
    requires Enabled(s, Note(p), limit)
    ensures
      var s' := Deciding(s, tenant, p, ok, ms, ttl, limit);
      var id := s.handlers[p].id;
      && s'.w.l == (if ok then s.w.l else LeaseSet.Release(s.w.l, ms, id).leases)
      && s'.log == s.log + [Entry(tenant, id, Acquired)] + (if ok then [] else [Entry(tenant, id, Freed)])
      && s'.handlers == s.handlers - {p}
  {
    var s1 := Next(s, tenant, Timed(Note(p), ms), ttl, limit);
    var s2 := Next(s1, tenant, Timed(Decide(p, ok), ms), ttl, limit);
    if ok {
      assert s1.log + [] == s1.log;
    } else {
      UndoIs(s2, tenant, p, ms, ttl, limit);
    }
  }

  /** An authorization from its acquire on. */
  function Acquiring(s: State, tenant: string, p: nat, id: string, max: int, ok: bool, ms: nat, ttl: nat,
                     limit: nat): State
    requires Enabled(s, Take(p, id, max), limit)
  {
    var s1 := Next(s, tenant, Timed(Take(p, id, max), ms), ttl, limit);
    if p !in s1.handlers then s1 else Deciding(s1, tenant, p, ok, ms, ttl, limit)
  }

  predicate MeterAdmits(plane: Plane, i: TenantInfo, ms: nat) {
    i.rpmLimit > 0 ==> RpmWindow.Script(plane.rpm, ms, i.rpmLimit).ok
  }

  lemma EnteredIs(plane: Plane, i: TenantInfo, remaining: int, id: string, ms: nat, ttl: nat)
    requires i.maxConcurrency > 0
    ensures
      var r := LeaseSet.Acquire(plane.leases, ms, ttl, id, i.maxConcurrency);
      var o := Entered(plane, i, remaining, id, ms, ttl);
      && (r.count == 0 ==> o.plane.leases == r.leases && o.log == [])
      && (r.count != 0 && MeterAdmits(plane, i, ms) ==>
        o.plane.leases == r.leases && o.log == [Entry(i.tenant, id, Acquired)])
      && (r.count != 0 && !MeterAdmits(plane, i, ms) ==>
        && o.plane.leases == LeaseSet.Release(r.leases, ms, id).leases
        && o.log == [Entry(i.tenant, id, Acquired), Entry(i.tenant, id, Freed)])
  {
  }

  /** Uninterrupted, it leaves lease set and log as the pipeline does. */
  lemma AcquiringIsEntered(s: State, tenant: string, p: nat, id: string, i: TenantInfo, plane: Plane, remaining: int,
                           ms: nat, ttl: nat, limit: nat)
    requires Enabled(s, Take(p, id, i.maxConcurrency), limit) && i.tenant == tenant && plane.leases == s.w.l
    ensures
      var s' := Acquiring(s, tenant, p, id, i.maxConcurrency, MeterAdmits(plane, i, ms), ms, ttl, limit);
      var o := Entered(plane, i, remaining, id, ms, ttl);
      s'.w.l == o.plane.leases && s'.log == s.log + o.log && s'.handlers == s.handlers
  {
    TakeIs(s, tenant, p, id, i.maxConcurrency, ms, ttl, limit);
    AcquireCounts(s.w.l, ms, ttl, id, i.maxConcurrency);
    EnteredIs(plane, i, remaining, id, ms, ttl);
    var s1 := Next(s, tenant, Timed(Take(p, id, i.maxConcurrency), ms), ttl, limit);
    if p in s1.handlers {
      DecidingIs(s1, tenant, p, MeterAdmits(plane, i, ms), ms, ttl, limit);
      TakenBack(s.handlers, p, Took(id));
      Rejoin(s.log, Entry(tenant, id, Acquired), Entry(tenant, id, Freed));
    } else {
      assert s.log + [] == s.log;
    }
  }

  lemma Rejoin<T>(s: seq<T>, a: T, b: T)
    ensures s + [a] + [] == s + [a] && s + [a] + [b] == s + [a, b]
  {
  }

  lemma TakenBack<K, V>(m: map<K, V>, k: K, v: V)
    requires k !in m
    ensures m[k := v] - {k} == m
  {
  }

  lemma AcquireCounts(l: LeaseSet.Leases, ms: nat, ttl: nat, id: string, max: int)
    ensures LeaseSet.Acquire(l, ms, ttl, id, max).count >= 0
  {
  }

  /** A release and its log entry, with nothing in between. */
  function Freeing(s: State, tenant: string, p: nat, id: string, ms: nat, ttl: nat, limit: nat): State
    requires Enabled(s, Free(p, id), limit)
  {
    var s1 := Next(s, tenant, Timed(Free(p, id), ms), ttl, limit);
    if p in s1.handlers then Next(s1, tenant, Timed(NoteFree(p), ms), ttl, limit) else s1
  }

  lemma FreeingIs(s: State, tenant: string, p: nat, id: string, ms: nat, ttl: nat, limit: nat)
    requires Enabled(s, Free(p, id), limit)
    ensures
      var s' := Freeing(s, tenant, p, id, ms, ttl, limit);
      var r := LeaseSet.Release(s.w.l, ms, id);
      && s'.w.l == r.leases && s'.handlers == s.handlers
      && s'.log == s.log + (if r.count < 0 then [] else [Entry(tenant, id, Freed)])
  {
    FreeIs(s, tenant, p, id, ms, ttl, limit);
    TakenBack(s.handlers, p, GaveBack(id));
    assert s.log + [] == s.log;
  }

  /** And a release leaves them as the handler of a release does. */
  lemma FreeIsRelease(s: State, tenant: string, p: nat, id: string, plane: Plane, ms: nat, ttl: nat, limit: nat)
    requires Enabled(s, Free(p, id), limit) && plane.leases == s.w.l
    ensures
      var s' := Freeing(s, tenant, p, id, ms, ttl, limit);
      var o := Release(plane, tenant, id, ms);
      s'.w.l == o.plane.leases && s'.log == s.log + o.log && s'.handlers == s.handlers
  {
    FreeingIs(s, tenant, p, id, ms, ttl, limit);
  }

  lemma FreeIs(s: State, tenant: string, p: nat, id: string, ms: nat, ttl: nat, limit: nat)
    requires Enabled(s, Free(p, id), limit)
    ensures
      var s' := Next(s, tenant, Timed(Free(p, id), ms), ttl, limit);
      var r := LeaseSet.Release(s.w.l, ms, id);
      && s'.w.l == r.leases && s'.log == s.log
      && s'.handlers == if r.count < 0 then s.handlers else s.handlers[p := GaveBack(id)]
  {
    LeaseSet.StepRunsScript(s.w, LeaseSet.Timed(LeaseSet.TryRelease(id), ms), ttl);
  }

  // ----- Fates -----

  predicate Released(book: LeaseSet.Book, id: string) {
    id in book && book[id].fate == LeaseSet.Released
  }

  predicate Held(book: LeaseSet.Book, id: string) {
    id in book && book[id].fate == LeaseSet.Held
  }

  /** What a script does to the fate of one lease. */
  lemma FateMoves(w: LeaseSet.World, op: LeaseSet.Timed, id: string, now: nat, ttl: nat, limit: nat)
    requires LeaseSet.Fits(w.l, w.book, id, now) && now <= op.ms && LeaseSet.Allowed(w, op, limit)
    ensures
      var book := LeaseSet.Step(w, op, ttl).book;
      var took := op.op.TryAcquire? && op.op.id == id && LeaseSet.Result(w, op, ttl) > 0;
      var freed := op.op == LeaseSet.TryRelease(id) && LeaseSet.Result(w, op, ttl) >= 0;
      && (id in book <==> id in w.book || took)
      && (took ==> Held(book, id))
      && (freed ==> Held(w.book, id) && Released(book, id))
      && (!freed ==> (Released(book, id) <==> Released(w.book, id)))
      && (!took && Held(book, id) ==> Held(w.book, id))
      && (op.op == LeaseSet.TryRelease(id) ==> !Held(book, id))
  {
    LeaseSet.PassedFits(w, id, now, op.ms);
  }

  // ----- What the log says -----

  /** One lease: its stage, its fate and its log entries belong together. */
  predicate Telling(s: State, id: string) {
    var said := QuotaPlane.Entries(s.log, id);
    if id !in s.stages then id !in s.w.book && said == []
    else
      && id in s.w.book
      && match s.stages[id]
         case Unlogged(p) => !Released(s.w.book, id) && said == [] && p in s.handlers && s.handlers[p] == Took(id)
         case Private(p) =>
           !Released(s.w.book, id) && said == [Acquired] && p in s.handlers && s.handlers[p] in {Noted(id), Rolling(id)}
         case Undoing(p) => !Held(s.w.book, id) && said == [Acquired] && p in s.handlers && s.handlers[p] == Undone(id)
         case Closed => !Held(s.w.book, id) && said == [Acquired, Freed]
         case Out => !Released(s.w.book, id) && said == [Acquired]
         case Returning(p) =>
           Released(s.w.book, id) && said == [Acquired] && p in s.handlers && s.handlers[p] == GaveBack(id)
         case Back => Released(s.w.book, id) && said == [Acquired, Freed]
  }

  /** One handler: the lease it works on is at the stage it says. */
  predicate Working(s: State, p: nat) {
    p in s.handlers ==>
      && s.handlers[p].id in s.stages
      && var stage := s.stages[s.handlers[p].id];
         match s.handlers[p]
         case Took(_) => stage == Unlogged(p)
         case Noted(_) => stage == Private(p)
         case Rolling(_) => stage == Private(p)
         case Undone(_) => stage == Undoing(p)
         case GaveBack(_) => stage == Returning(p)
  }

  ghost predicate Inv(s: State, now: nat, ttl: nat, limit: nat) {
    && LeaseSet.Inv(s.w, now, ttl, limit)
    && (forall id :: Telling(s, id)) && (forall p :: Working(s, p))
  }

  lemma WorldKeeps(s: State, e: Timed, now: nat, ttl: nat, limit: nat)
    requires LeaseSet.Inv(s.w, now, ttl, limit) && Enabled(s, e.act, limit) && now <= e.ms
    ensures LeaseSet.Inv(Written(s, e, ttl), e.ms, ttl, limit)
  {
    match Script(s, e)
    case Some(op) => LeaseSet.StepKeeps(s.w, op, now, ttl, limit);
    case None => LeaseSet.InvLater(s.w, now, e.ms, ttl, limit);
  }

  lemma OneEntry(log: seq<Entry>, e: Entry, id: string)
    ensures QuotaPlane.Entries(log + [e], id) == QuotaPlane.Entries(log, id) + if e.lease == id then [e.action] else []
  {
    assert Init(log + [e]) == log;
  }

  /** A step with a script: the lease it names, and all others. */
  lemma ScriptTells(s: State, tenant: string, e: Timed, now: nat, ttl: nat, limit: nat, id: string)
    requires Script(s, e).Some? && Enabled(s, e.act, limit) && now <= e.ms
    requires LeaseSet.Fits(s.w.l, s.w.book, id, now) && Telling(s, id)
    requires e.act.Take? ==> e.act.p !in s.handlers
    requires e.act.Undo? ==> Working(s, e.act.p)
    ensures Telling(Next(s, tenant, e, ttl, limit), id)
  {
    FateMoves(s.w, Script(s, e).value, id, now, ttl, limit);
  }

  lemma DecideTells(s: State, tenant: string, e: Timed, ttl: nat, limit: nat, id: string)
    requires e.act.Decide? && Enabled(s, e.act, limit) && Telling(s, id) && Working(s, e.act.p)
    ensures Telling(Next(s, tenant, e, ttl, limit), id)
  {
  }

  lemma NoteTells(s: State, tenant: string, e: Timed, ttl: nat, limit: nat, id: string)
    requires e.act.Note? && Enabled(s, e.act, limit) && Telling(s, id) && Working(s, e.act.p)
    ensures Telling(Next(s, tenant, e, ttl, limit), id)
  {
    OneEntry(s.log, Entry(tenant, s.handlers[e.act.p].id, Acquired), id);
  }

  lemma FreedTells(s: State, tenant: string, e: Timed, ttl: nat, limit: nat, id: string)
    requires (e.act.NoteUndo? || e.act.NoteFree?) && Enabled(s, e.act, limit) && Telling(s, id) && Working(s, e.act.p)
    ensures Telling(Next(s, tenant, e, ttl, limit), id)
  {
    OneEntry(s.log, Entry(tenant, s.handlers[e.act.p].id, Freed), id);
  }

  /** A step that only writes the log or decides. */
  lemma EntryTells(s: State, tenant: string, e: Timed, ttl: nat, limit: nat, id: string)
    requires Script(s, e).None? && Enabled(s, e.act, limit) && Telling(s, id)
    requires forall p :: Working(s, p)
    ensures Telling(Next(s, tenant, e, ttl, limit), id)
  {
    match e.act
    case Note(p) => assert Working(s, p); NoteTells(s, tenant, e, ttl, limit, id);
    case Decide(p, _) => assert Working(s, p); DecideTells(s, tenant, e, ttl, limit, id);
    case NoteUndo(p) => assert Working(s, p); FreedTells(s, tenant, e, ttl, limit, id);
    case NoteFree(p) => assert Working(s, p); FreedTells(s, tenant, e, ttl, limit, id);
  }

  /** A second successful release is impossible, so no handler loses its lease to another. */
  lemma FreeTakesOut(s: State, e: Timed, now: nat, ttl: nat, limit: nat)
    requires e.act.Free? && Enabled(s, e.act, limit) && now <= e.ms && Result(s, e, ttl) >= 0
    requires LeaseSet.Fits(s.w.l, s.w.book, e.act.id, now) && Telling(s, e.act.id)
    ensures e.act.id in s.stages && s.stages[e.act.id] == Out
  {
    FateMoves(s.w, Script(s, e).value, e.act.id, now, ttl, limit);
  }

  lemma Works(s: State, tenant: string, e: Timed, ttl: nat, limit: nat, p: nat)
    requires Enabled(s, e.act, limit) && Working(s, p)
    requires !(e.act.Take? || e.act.Free? || e.act.Trim?) ==> Working(s, e.act.p)
    requires e.act.Free? && Result(s, e, ttl) >= 0 ==> e.act.id in s.stages && s.stages[e.act.id] == Out
    ensures Working(Next(s, tenant, e, ttl, limit), p)
  {
  }

  lemma StepKeeps(s: State, tenant: string, e: Timed, now: nat, ttl: nat, limit: nat)
    requires Inv(s, now, ttl, limit) && Enabled(s, e.act, limit) && now <= e.ms
    ensures Inv(Next(s, tenant, e, ttl, limit), e.ms, ttl, limit)
  {
    var s' := Next(s, tenant, e, ttl, limit);
    WorldKeeps(s, e, now, ttl, limit);
    forall id ensures Telling(s', id) {
      assert LeaseSet.Fits(s.w.l, s.w.book, id, now);
      if e.act.Undo? { assert Working(s, e.act.p); }
      if Script(s, e).Some? {
        ScriptTells(s, tenant, e, now, ttl, limit, id);
      } else {
        EntryTells(s, tenant, e, ttl, limit, id);
      }
    }
    if e.act.Free? && Result(s, e, ttl) >= 0 {
      assert LeaseSet.Fits(s.w.l, s.w.book, e.act.id, now) && Telling(s, e.act.id);
      FreeTakesOut(s, e, now, ttl, limit);
    }
    forall p ensures Working(s', p) {
      assert Working(s, p);
      if !(e.act.Take? || e.act.Free? || e.act.Trim?) { assert Working(s, e.act.p); }
      Works(s, tenant, e, ttl, limit, p);
    }
  }

  lemma {:induction false} RunKeeps(s: State, tenant: string, run: seq<Timed>, now: nat, ttl: nat, limit: nat)
    requires Inv(s, now, ttl, limit) && Legal(s, tenant, run, now, ttl, limit)
    ensures Inv(After(s, tenant, run, now, ttl, limit), Clock(run, now), ttl, limit)
    decreases |run|
  {
    if run != [] {
      StepKeeps(s, tenant, run[0], now, ttl, limit);
      RunKeeps(Next(s, tenant, run[0], ttl, limit), tenant, run[1..], run[0].ms, ttl, limit);
    }
  }

  // ----- When a logged release is false -----

  /** A rollback misses its lease: at that instant the set no longer has it. The handler ignores the
      answer of the script. */
  predicate Misses(s: State, e: Timed, id: string) {
    && e.act.Undo? && e.act.p in s.handlers && s.handlers[e.act.p].id == id
    && id !in LeaseSet.AtTime(s.w.l, e.ms).scores
  }

  predicate SomeMiss(s: State, tenant: string, run: seq<Timed>, now: nat, ttl: nat, limit: nat, id: string)
    requires Legal(s, tenant, run, now, ttl, limit)
    decreases |run|
  {
    run != [] &&
    (Misses(s, run[0], id)
     || SomeMiss(Next(s, tenant, run[0], ttl, limit), tenant, run[1..], run[0].ms, ttl, limit, id))
  }

  /** That is what the release script answers. */
  lemma MissIsAnswer(s: State, e: Timed, ttl: nat)
    requires e.act.Undo? && e.act.p in s.handlers
    ensures Misses(s, e, s.handlers[e.act.p].id) <==> Result(s, e, ttl) < 0
  {
  }

  /** Rolled back by its own handler, and no script released it. */
  predicate Unreleased(s: State, id: string) {
    id in s.stages && (s.stages[id].Undoing? || s.stages[id].Closed?) && !Released(s.w.book, id)
  }

  lemma MissStep(s: State, tenant: string, e: Timed, now: nat, ttl: nat, limit: nat, id: string)
    requires Inv(s, now, ttl, limit) && Enabled(s, e.act, limit) && now <= e.ms
    ensures Unreleased(Next(s, tenant, e, ttl, limit), id) <==> Unreleased(s, id) || Misses(s, e, id)
  {
    assert LeaseSet.Fits(s.w.l, s.w.book, id, now) && Telling(s, id);
    if e.act.Undo? { MissIsAnswer(s, e, ttl); }
    if e.act.Take? || e.act.Free? || e.act.Trim? {
      FateMoves(s.w, Script(s, e).value, id, now, ttl, limit);
    } else {
      assert Working(s, e.act.p);
      if Script(s, e).Some? { FateMoves(s.w, Script(s, e).value, id, now, ttl, limit); }
    }
  }

  lemma {:induction false} MissRun(s: State, tenant: string, run: seq<Timed>, now: nat, ttl: nat, limit: nat,
                                   id: string)
    requires Inv(s, now, ttl, limit) && Legal(s, tenant, run, now, ttl, limit)
    ensures Unreleased(After(s, tenant, run, now, ttl, limit), id)
            <==> Unreleased(s, id) || SomeMiss(s, tenant, run, now, ttl, limit, id)
    decreases |run|
  {
    if run != [] {
      StepKeeps(s, tenant, run[0], now, ttl, limit);
      MissStep(s, tenant, run[0], now, ttl, limit, id);
      MissRun(Next(s, tenant, run[0], ttl, limit), tenant, run[1..], run[0].ms, ttl, limit, id);
    }
  }

  /**
   In every interleaving the log says about a lease nothing, its acquire, or its acquire and then one
   release. It says released only of leases that are no longer held; and the entry is false, that is, no
   script released the lease, if and only if its rollback found it gone from the set.
   */
  lemma LogIsOrderly(tenant: string, run: seq<Timed>, ttl: nat, limit: nat, id: string)
    requires Legal(Start, tenant, run, 0, ttl, limit)
    ensures
      var s := After(Start, tenant, run, 0, ttl, limit);
      var said := QuotaPlane.Entries(s.log, id);
      && said in {[], [Acquired], [Acquired, Freed]}
      && (said == [Acquired, Freed] ==>
            && id in s.w.book && !Held(s.w.book, id)
            && (!Released(s.w.book, id) <==> SomeMiss(Start, tenant, run, 0, ttl, limit, id)))
  {
    RunKeeps(Start, tenant, run, 0, ttl, limit);
    MissRun(Start, tenant, run, 0, ttl, limit, id);
    assert Telling(After(Start, tenant, run, 0, ttl, limit), id);
  }

  /** Every rollback comes in a second before its lease ends. */
  predicate Prompt(s: State, tenant: string, run: seq<Timed>, now: nat, ttl: nat, limit: nat)
    requires Legal(s, tenant, run, now, ttl, limit)
    decreases |run|
  {
    run != [] ==>
      && (run[0].act.Undo? ==>
            var id := s.handlers[run[0].act.p].id;
            id in s.w.book && Sec(run[0].ms) < s.w.book[id].ends)
      && Prompt(Next(s, tenant, run[0], ttl, limit), tenant, run[1..], run[0].ms, ttl, limit)
  }

  lemma PromptFinds(s: State, e: Timed, now: nat, ttl: nat, limit: nat)
    requires Inv(s, now, ttl, limit) && e.act.Undo? && Enabled(s, e.act, limit) && now <= e.ms
    requires
      var id := s.handlers[e.act.p].id;
      id in s.w.book && Sec(e.ms) < s.w.book[id].ends
    ensures forall id :: !Misses(s, e, id)
  {
    var id := s.handlers[e.act.p].id;
    assert Working(s, e.act.p) && Telling(s, id) && LeaseSet.Fits(s.w.l, s.w.book, id, now);
    LeaseSet.PassedFits(s.w, id, now, e.ms);
  }

  lemma {:induction false} PromptRun(s: State, tenant: string, run: seq<Timed>, now: nat, ttl: nat, limit: nat,
                                     id: string)
    requires Inv(s, now, ttl, limit) && Legal(s, tenant, run, now, ttl, limit)
    requires Prompt(s, tenant, run, now, ttl, limit)
    ensures !SomeMiss(s, tenant, run, now, ttl, limit, id)
    decreases |run|
  {
    if run != [] {
      if run[0].act.Undo? { PromptFinds(s, run[0], now, ttl, limit); }
      StepKeeps(s, tenant, run[0], now, ttl, limit);
      PromptRun(Next(s, tenant, run[0], ttl, limit), tenant, run[1..], run[0].ms, ttl, limit, id);
    }
  }

  /** So a run whose rollbacks come before their leases end has a truthful log. */
  lemma PromptLogIsTrue(tenant: string, run: seq<Timed>, ttl: nat, limit: nat, id: string)
    requires Legal(Start, tenant, run, 0, ttl, limit) && Prompt(Start, tenant, run, 0, ttl, limit)
    ensures
      var s := After(Start, tenant, run, 0, ttl, limit);
      QuotaPlane.Entries(s.log, id) == [Acquired, Freed] ==> Released(s.w.book, id)
  {
    PromptRun(Start, tenant, run, 0, ttl, limit, id);
    LogIsOrderly(tenant, run, ttl, limit, id);
  }

  lemma Prepend(s: State, tenant: string, e: Timed, run: seq<Timed>, now: nat, ttl: nat, limit: nat)
    requires now <= e.ms && Enabled(s, e.act, limit)
    requires Legal(Next(s, tenant, e, ttl, limit), tenant, run, e.ms, ttl, limit)
    ensures Legal(s, tenant, [e] + run, now, ttl, limit)
    ensures After(s, tenant, [e] + run, now, ttl, limit) ==
            After(Next(s, tenant, e, ttl, limit), tenant, run, e.ms, ttl, limit)
  {
    assert ([e] + run)[1..] == run;
  }

  /** An authorization with a lease of one second, refused by the window: about to roll back. */
  lemma Refused(tenant: string, id: string, rest: seq<Timed>) returns (run: seq<Timed>, s: State)
    ensures s.handlers == map[0 := Rolling(id)] && s.w.l.scores == map[id := 1] && !Released(s.w.book, id)
    ensures QuotaPlane.Entries(s.log, id) == [Acquired]
    ensures Legal(s, tenant, rest, 0, 1, 1) ==>
              Legal(Start, tenant, run, 0, 1, 1)
                && After(Start, tenant, run, 0, 1, 1) == After(s, tenant, rest, 0, 1, 1)
  {
    var e1, e2, e3 := Timed(Take(0, id, 1), 0), Timed(Note(0), 0), Timed(Decide(0, false), 0);
    var s1 := Next(Start, tenant, e1, 1, 1);
    assert s1.handlers == map[0 := Took(id)] && s1.w.l.scores == map[id := 1];
    var s2 := Next(s1, tenant, e2, 1, 1);
    s := Next(s2, tenant, e3, 1, 1);
    OneEntry(s1.log, Entry(tenant, id, Acquired), id);
    run := [e1] + ([e2] + ([e3] + rest));
    if Legal(s, tenant, rest, 0, 1, 1) {
      Prepend(s2, tenant, e3, rest, 0, 1, 1);
      Prepend(s1, tenant, e2, [e3] + rest, 0, 1, 1);
      Prepend(Start, tenant, e1, [e2] + ([e3] + rest), 0, 1, 1);
    }
  }

  lemma TimeReleasesNothing(w: LeaseSet.World, id: string, ms: nat)
    requires (id in w.l.scores ==> w.l.scores[id] == 1) && !Released(w.book, id)
    ensures
      var p := LeaseSet.Passed(w, ms);
      (id in p.l.scores ==> p.l.scores[id] == 1) && !Released(p.book, id)
  {
  }

  lemma TrimsIt(s: State, id: string)
    requires (id in s.w.l.scores ==> s.w.l.scores[id] == 1) && !Released(s.w.book, id)
    ensures
      var w := Written(s, Timed(Trim, 2000), 1);
      id !in w.l.scores && !Released(w.book, id)
  {
    TimeReleasesNothing(s.w, id, 2000);
    var p := LeaseSet.Passed(s.w, 2000);
    var w := LeaseSet.Step(s.w, LeaseSet.Timed(LeaseSet.TrimEnded, 2000), 1);
    assert id !in w.l.scores;
    assert !Released(LeaseSet.Moved(p.book, LeaseSet.Ended(p.l.scores, 2), LeaseSet.Reaped), id);
  }

  lemma UndoesNothing(s: State, tenant: string, id: string)
    requires s.handlers == map[0 := Rolling(id)] && id !in s.w.l.scores && !Released(s.w.book, id)
    ensures
      var s' := Next(s, tenant, Timed(Undo(0), 2000), 1, 1);
      s'.handlers == map[0 := Undone(id)] && s'.log == s.log && !Released(s'.w.book, id)
  {
    assert map[0 := Rolling(id)][0 := Undone(id)] == map[0 := Undone(id)];
  }

  /** Two seconds later its lease has been trimmed, and the rollback releases nothing but logs a release. */
  lemma RollsBack(tenant: string, id: string, s: State, run: seq<Timed>)
    requires run == [Timed(Trim, 2000)] + ([Timed(Undo(0), 2000)] + ([Timed(NoteUndo(0), 2000)] + []))
    requires s.handlers == map[0 := Rolling(id)] && s.w.l.scores == map[id := 1] && !Released(s.w.book, id)
    requires QuotaPlane.Entries(s.log, id) == [Acquired]
    ensures Legal(s, tenant, run, 0, 1, 1)
    ensures
      var s' := After(s, tenant, run, 0, 1, 1);
      QuotaPlane.Entries(s'.log, id) == [Acquired, Freed] && !Released(s'.w.book, id)
  {
    var e4, e5, e6 := Timed(Trim, 2000), Timed(Undo(0), 2000), Timed(NoteUndo(0), 2000);
    TrimsIt(s, id);
    var s4 := s.(w := Written(s, e4, 1));
    assert Next(s, tenant, e4, 1, 1) == s4;
    UndoesNothing(s4, tenant, id);
    var s5 := Next(s4, tenant, e5, 1, 1);
    OneEntry(s5.log, Entry(tenant, id, Freed), id);
    Prepend(s5, tenant, e6, [], 2000, 1, 1);
    Prepend(s4, tenant, e5, [e6] + [], 2000, 1, 1);
    Prepend(s, tenant, e4, [e5] + ([e6] + []), 0, 1, 1);
  }

  /** So the log can say released of a lease that no script released. */
  lemma LateRollback(tenant: string, id: string)
    ensures exists run: seq<Timed> ::
              && Legal(Start, tenant, run, 0, 1, 1)
              && QuotaPlane.Entries(After(Start, tenant, run, 0, 1, 1).log, id) == [Acquired, Freed]
              && !Released(After(Start, tenant, run, 0, 1, 1).w.book, id)
  {
    var rest := [Timed(Trim, 2000)] + ([Timed(Undo(0), 2000)] + ([Timed(NoteUndo(0), 2000)] + []));
    var run, s := Refused(tenant, id, rest);
    RollsBack(tenant, id, s, rest);
  }
}
