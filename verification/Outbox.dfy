/**
 The event outbox and its webhook worker (fusion_identity/store.py:1213-1250,
 fusion_identity/events.py:72-163): events are appended as pending, a single worker takes batches of
 pending events, posts each, and marks it delivered, pending again, or dead after the last attempt.

 Whether a post succeeds, and when the worker is told to stop, are inputs. Event payloads and
 signatures are not modelled. Ids are fresh.
 */
module Outbox {
  import opened Util

  const OUTBOX_CAP := 100000

  datatype Status = Pending | Delivered | Dead

  datatype Event = Event(id: string, status: Status, attempts: nat)

  function Marked(box: seq<Event>, id: string, status: Status, attempts: nat): seq<Event> {
    seq(|box|, i requires 0 <= i < |box| => if box[i].id == id then Event(id, status, attempts) else box[i])
  }

  function Appended(box: seq<Event>, id: string): seq<Event> {
    var longer := box + [Event(id, Pending, 0)];
    if |longer| > OUTBOX_CAP then longer[|longer| - OUTBOX_CAP..] else longer
  }

  /** The new event comes last, and the oldest one goes exactly when the outbox holds 100000 already. */
  lemma AppendedIs(box: seq<Event>, id: string, i: nat)
    requires |box| <= 100_000 && i < |box|
    ensures
      var after := Appended(box, id);
      && |after| == (if |box| < 100_000 then |box| + 1 else 100_000) && Last(after) == Event(id, Pending, 0)
      && (|box| < 100_000 ==> after[i] == box[i]) && (|box| == 100_000 && i > 0 ==> after[i - 1] == box[i])
  {
  }

  /** The pending events, oldest first. */
  function Waiting(box: seq<Event>): seq<Event> {
    if box == [] then [] else Waiting(Init(box)) + if Last(box).status == Pending then [Last(box)] else []
  }

  function Batch(box: seq<Event>, limit: nat): seq<Event> {
    if |Waiting(box)| <= limit then Waiting(box) else Waiting(box)[..limit]
  }

  /** The status an attempt ends in. */
  function Verdict(attempts: nat, ok: bool, max: nat): Status {
    if ok then Delivered else if attempts >= max then Dead else Pending
  }

  function Posted(box: seq<Event>, e: Event, ok: bool, max: nat): seq<Event> {
    Marked(box, e.id, Verdict(e.attempts + 1, ok, max), e.attempts + 1)
  }

  predicate Distinct(box: seq<Event>) {
    forall i, j :: 0 <= i < j < |box| ==> box[i].id != box[j].id
  }

  /** A tick: the batch in order, up to the number of answers that come before a stop. */
  function Ticked(box: seq<Event>, batch: seq<Event>, answers: seq<bool>, max: nat): seq<Event>
    decreases |batch|
  {
    if batch == [] || answers == [] then box
    else Ticked(Posted(box, batch[0], answers[0], max), batch[1..], answers[1..], max)
  }

  class EventStore {
    var events: seq<Event>

    constructor ()
      ensures events == []
    {
      events := [];
    }

    method AppendEvent(id: string)
      modifies this
      ensures events == Appended(old(events), id)
    {
      events := events + [Event(id, Pending, 0)];
      if |events| > OUTBOX_CAP {
        events := events[|events| - OUTBOX_CAP..];
      }
    }

    method PendingEvents(limit: nat) returns (r: seq<Event>)
      ensures r == Batch(events, limit)
    {
      r := [];
      for i := 0 to |events|
        invariant r == Waiting(events[..i])
      {
        assert Init(events[..i + 1]) == events[..i] && Last(events[..i + 1]) == events[i];
        if events[i].status == Pending {
          r := r + [events[i]];
        }
      }
      assert events[..|events|] == events;
      if |r| > limit {
        r := r[..limit];
      }
    }

    /** The first event with the id. */
    method MarkEvent(id: string, status: Status, attempts: nat) returns (found: bool)
      requires Distinct(events)
      modifies this
      ensures events == Marked(old(events), id, status, attempts) && Distinct(events)
      ensures found == exists i :: 0 <= i < |old(events)| && old(events)[i].id == id
    {
      for i := 0 to |events|
        invariant events == old(events)
        invariant forall j :: 0 <= j < i ==> events[j].id != id
      {
        if events[i].id == id {
          events := events[i := Event(id, status, attempts)];
          assert events == Marked(old(events), id, status, attempts);
          return true;
        }
      }
      assert events == Marked(old(events), id, status, attempts);
      return false;
    }
  }

  class WebhookWorker {
    const store: EventStore
    const maxAttempts: nat
    const batchSize: nat

    constructor (store: EventStore, maxAttempts: nat, batchSize: nat)
      ensures this.store == store && this.maxAttempts == maxAttempts && this.batchSize == batchSize
    {
      this.store, this.maxAttempts, this.batchSize := store, maxAttempts, batchSize;
    }

    method DeliverOne(e: Event, ok: bool)
      requires Distinct(store.events)
      modifies store
      ensures store.events == Posted(old(store.events), e, ok, maxAttempts) && Distinct(store.events)
    {
      var attempts := e.attempts + 1;
      if ok {
        var _ := store.MarkEvent(e.id, Delivered, attempts);
      } else if attempts >= maxAttempts {
        var _ := store.MarkEvent(e.id, Dead, attempts);
      } else {
        var _ := store.MarkEvent(e.id, Pending, attempts);
      }
    }

    /** _tick: one answer per post; the worker stops when they run out. */
    method Tick(answers: seq<bool>)
      requires Distinct(store.events)
      modifies store
      ensures store.events == Ticked(old(store.events), Batch(old(store.events), batchSize), answers, maxAttempts)
      ensures Distinct(store.events)
    {
      var batch := store.PendingEvents(batchSize);
      var i := 0;
      while i < |batch| && i < |answers|
        invariant 0 <= i <= |batch| && i <= |answers| && Distinct(store.events)
        invariant Ticked(store.events, batch[i..], answers[i..], maxAttempts) ==
                  Ticked(old(store.events), batch, answers, maxAttempts)
      {
        assert batch[i..][1..] == batch[i + 1..] && answers[i..][1..] == answers[i + 1..];
        DeliverOne(batch[i], answers[i]);
        i := i + 1;
      }
    }
  }

  // ----- Runs -----

  /** `Halt` stops the worker between two posts. `Cut` cancels it in the middle of one, ten seconds after
      the stop: the post is sent, and nothing is recorded. */
  datatype Act = Append(id: string) | Take | Post(ok: bool) | Cut | Halt

  /** The outbox, what the worker still holds of its batch, how many posts of each event were recorded,
      and the events whose success was. */
  datatype State = State(box: seq<Event>, batch: seq<Event>, posts: map<string, nat>, done: set<string>)

  const Start := State([], [], map[], {})

  predicate Enabled(s: State, a: Act) {
    match a
    case Append(id) => id !in s.posts
    case Take => s.batch == []
    case Post(_) => s.batch != [] && s.batch[0].id in s.posts
    case Cut => s.batch != []
    case Halt => true
  }

  function Next(s: State, a: Act, max: nat, size: nat): State
    requires Enabled(s, a)
  {
    match a
    case Append(id) => s.(box := Appended(s.box, id), posts := s.posts[id := 0])
    case Take => s.(batch := Batch(s.box, size))
    case Post(ok) =>
      var e := s.batch[0];
      State(Posted(s.box, e, ok, max), s.batch[1..], s.posts[e.id := s.posts[e.id] + 1],
            if ok then s.done + {e.id} else s.done)
    case Cut => s.(batch := [])
    case Halt => s.(batch := [])
  }

  predicate Legal(s: State, run: seq<Act>, max: nat, size: nat)
    decreases |run|
  {
    if run == [] then true else Enabled(s, run[0]) && Legal(Next(s, run[0], max, size), run[1..], max, size)
  }

  function After(s: State, run: seq<Act>, max: nat, size: nat): State
    requires Legal(s, run, max, size)
    decreases |run|
  {
    if run == [] then s else After(Next(s, run[0], max, size), run[1..], max, size)
  }

  /** An event's own record: its attempts are its posts, below the limit while it is pending; it is
      delivered exactly if a post succeeded, and dead only after the last attempt. */
  predicate Sound(s: State, e: Event, max: nat) {
    && e.id in s.posts && s.posts[e.id] == e.attempts <= max
    && (e.status == Pending ==> e.attempts < max)
    && (e.status == Dead ==> e.attempts == max)
    && (e.status == Delivered <==> e.id in s.done)
  }

  predicate Inv(s: State, max: nat) {
    && Distinct(s.box) && Distinct(s.batch)
    && (forall i :: 0 <= i < |s.box| ==> Sound(s, s.box[i], max))
    && (forall i :: 0 <= i < |s.batch| ==> Sound(s, s.batch[i], max) && s.batch[i].status == Pending)
    && (forall i, j :: 0 <= i < |s.box| && 0 <= j < |s.batch| && s.box[i].id == s.batch[j].id ==>
      s.box[i] == s.batch[j])
    && (forall id :: id in s.posts ==> s.posts[id] <= max)
    && s.done <= s.posts.Keys
  }

  lemma {:induction false} WaitingAt(box: seq<Event>, e: Event)
    ensures e in Waiting(box) <==> e in box && e.status == Pending
  {
    if box != [] {
      WaitingAt(Init(box), e);
      assert box == Init(box) + [Last(box)];
    }
  }

  lemma {:induction false} WaitingDistinct(box: seq<Event>)
    requires Distinct(box)
    ensures Distinct(Waiting(box))
  {
    if box != [] {
      WaitingDistinct(Init(box));
      forall i | 0 <= i < |Waiting(Init(box))| ensures Waiting(Init(box))[i].id != Last(box).id {
        WaitingAt(Init(box), Waiting(Init(box))[i]);
        var j :| 0 <= j < |Init(box)| && Init(box)[j] == Waiting(Init(box))[i];
        assert box[j] == Init(box)[j];
      }
    }
  }

  lemma AppendLonger(s: State, id: string, max: nat)
    requires Inv(s, max) && max > 0 && id !in s.posts
    ensures Inv(s.(box := s.box + [Event(id, Pending, 0)], posts := s.posts[id := 0]), max)
  {
    var s' := s.(box := s.box + [Event(id, Pending, 0)], posts := s.posts[id := 0]);
    forall i | 0 <= i < |s'.box| ensures Sound(s', s'.box[i], max) {
      if i < |s.box| { assert Sound(s, s.box[i], max); }
    }
    forall i | 0 <= i < |s.batch| ensures Sound(s', s.batch[i], max) && s.batch[i].id != id {
      assert Sound(s, s.batch[i], max);
    }
  }

  lemma EvictKeeps(s: State, cut: nat, max: nat)
    requires Inv(s, max) && cut <= |s.box|
    ensures Inv(s.(box := s.box[cut..]), max)
  {
    var s' := s.(box := s.box[cut..]);
    forall i | 0 <= i < |s'.box| ensures Sound(s', s'.box[i], max) {
      assert Sound(s, s.box[i + cut], max);
    }
    forall i | 0 <= i < |s.batch| ensures Sound(s', s.batch[i], max) {
      assert Sound(s, s.batch[i], max);
    }
  }

  lemma AppendKeeps(s: State, id: string, max: nat, size: nat)
    requires Inv(s, max) && max > 0 && Enabled(s, Append(id))
    ensures Inv(Next(s, Append(id), max, size), max)
  {
    AppendLonger(s, id, max);
    var longer := s.(box := s.box + [Event(id, Pending, 0)], posts := s.posts[id := 0]);
    if |longer.box| > 100_000 { EvictKeeps(longer, |longer.box| - 100_000, max); }
  }

  lemma BatchAt(box: seq<Event>, size: nat, i: nat) returns (k: nat)
    requires i < |Batch(box, size)|
    ensures k < |box| && box[k] == Batch(box, size)[i] && box[k].status == Pending
  {
    var e := Batch(box, size)[i];
    assert e == Waiting(box)[i];
    WaitingAt(box, e);
    k :| 0 <= k < |box| && box[k] == e;
  }

  lemma TakeKeeps(s: State, max: nat, size: nat)
    requires Inv(s, max) && s.batch == []
    ensures Inv(Next(s, Take, max, size), max)
  {
    var s' := Next(s, Take, max, size);
    WaitingDistinct(s.box);
    assert forall i :: 0 <= i < |s'.batch| ==> s'.batch[i] == Waiting(s.box)[i];
    forall j | 0 <= j < |s'.batch|
      ensures Sound(s', s'.batch[j], max) && s'.batch[j].status == Pending
      ensures forall i :: 0 <= i < |s.box| && s.box[i].id == s'.batch[j].id ==> s.box[i] == s'.batch[j]
    {
      var k := BatchAt(s.box, size, j);
      assert Sound(s, s.box[k], max);
    }
    forall i | 0 <= i < |s.box| ensures Sound(s', s.box[i], max) {
      assert Sound(s, s.box[i], max);
    }
  }

  lemma PostKeeps(s: State, ok: bool, max: nat, size: nat)
    requires Inv(s, max) && Enabled(s, Post(ok))
    ensures Inv(Next(s, Post(ok), max, size), max)
  {
    var e := s.batch[0];
    var s' := Next(s, Post(ok), max, size);
    forall i | 0 <= i < |s'.box| ensures Sound(s', s'.box[i], max) {
      assert Sound(s, s.box[i], max);
    }
    forall j | 0 <= j < |s'.batch|
      ensures Sound(s', s'.batch[j], max) && s'.batch[j] == s.batch[j + 1] && s'.batch[j].id != e.id {
      assert Sound(s, s.batch[j + 1], max);
    }
  }

  lemma StepKeeps(s: State, a: Act, max: nat, size: nat)
    requires Inv(s, max) && max > 0 && Enabled(s, a)
    ensures Inv(Next(s, a, max, size), max)
  {
    match a
    case Append(id) => AppendKeeps(s, id, max, size);
    case Take => TakeKeeps(s, max, size);
    case Post(ok) => PostKeeps(s, ok, max, size);
    case Cut =>
    case Halt =>
  }

  lemma {:induction false} RunKeeps(s: State, run: seq<Act>, max: nat, size: nat)
    requires Inv(s, max) && max > 0 && Legal(s, run, max, size)
    ensures Inv(After(s, run, max, size), max)
    decreases |run|
  {
    if run != [] {
      StepKeeps(s, run[0], max, size);
      RunKeeps(Next(s, run[0], max, size), run[1..], max, size);
    }
  }

  /** How often a run posts an event, recorded or not. */
  function Posts(s: State, run: seq<Act>, id: string, max: nat, size: nat): nat
    requires Legal(s, run, max, size)
    decreases |run|
  {
    if run == [] then 0
    else
      (if (run[0].Post? || run[0].Cut?) && s.batch[0].id == id then 1 else 0)
      + Posts(Next(s, run[0], max, size), run[1..], id, max, size)
  }

  /** How many of these posts are cut off. */
  function Cuts(s: State, run: seq<Act>, id: string, max: nat, size: nat): nat
    requires Legal(s, run, max, size)
    decreases |run|
  {
    if run == [] then 0
    else
      (if run[0].Cut? && s.batch[0].id == id then 1 else 0)
      + Cuts(Next(s, run[0], max, size), run[1..], id, max, size)
  }

  function Recorded(s: State, id: string): nat {
    if id in s.posts then s.posts[id] else 0
  }

  lemma {:induction false} PostsAddUp(s: State, run: seq<Act>, id: string, max: nat, size: nat)
    requires Legal(s, run, max, size)
    ensures Recorded(s, id) + Posts(s, run, id, max, size)
            == Recorded(After(s, run, max, size), id) + Cuts(s, run, id, max, size)
    decreases |run|
  {
    if run != [] {
      PostsAddUp(Next(s, run[0], max, size), run[1..], id, max, size);
    }
  }

  /** In every run an event is posted at most as often as the limit allows, and once more for every post
      that was cut off; what is delivered was posted with success, and what is dead was posted up to
      the limit without one, exactly that often and once more for every cut-off post. */
  lemma PostsAreBounded(run: seq<Act>, max: nat, size: nat, id: string)
    requires max > 0 && Legal(Start, run, max, size)
    ensures
      var s := After(Start, run, max, size);
      var cuts := Cuts(Start, run, id, max, size);
      && Posts(Start, run, id, max, size) <= max + cuts
      && (forall e :: e in s.box && e.id == id ==>
            && (e.status == Delivered <==> id in s.done)
            && (e.status == Dead ==> Posts(Start, run, id, max, size) == max + cuts && id !in s.done))
  {
    RunKeeps(Start, run, max, size);
    PostsAddUp(Start, run, id, max, size);
    var s := After(Start, run, max, size);
    assert forall i :: 0 <= i < |s.box| ==> Sound(s, s.box[i], max);
  }

  /** An event is settled once it is delivered or dead. */
  predicate Settled(s: State, e: Event) {
    e in s.box && e.status != Pending
  }

  lemma SettledStays(s: State, a: Act, e: Event, max: nat, size: nat)
    requires Inv(s, max) && Enabled(s, a) && Settled(s, e)
    ensures a.Post? || a.Cut? ==> s.batch[0].id != e.id
    ensures !a.Append? || |s.box| < 100_000 ==> Settled(Next(s, a, max, size), e)
  {
    var i :| 0 <= i < |s.box| && s.box[i] == e;
    if a.Post? { assert Posted(s.box, s.batch[0], a.ok, max)[i] == e; }
    if a.Append? && |s.box| < 100_000 { assert Appended(s.box, a.id)[i] == e; }
  }

  /** A run that never appends to a full outbox. */
  predicate UnderCap(s: State, run: seq<Act>, max: nat, size: nat)
    requires Legal(s, run, max, size)
    decreases |run|
  {
    if run == [] then true
    else (run[0].Append? ==> |s.box| < 100_000) && UnderCap(Next(s, run[0], max, size), run[1..], max, size)
  }

  /** Below the cap such a record also stays in the outbox. */
  lemma {:induction false} SettledStaysThere(s: State, run: seq<Act>, e: Event, max: nat, size: nat)
    requires Inv(s, max) && max > 0 && Legal(s, run, max, size) && UnderCap(s, run, max, size) && Settled(s, e)
    ensures Settled(After(s, run, max, size), e)
    decreases |run|
  {
    if run != [] {
      SettledStays(s, run[0], e, max, size);
      StepKeeps(s, run[0], max, size);
      SettledStaysThere(Next(s, run[0], max, size), run[1..], e, max, size);
    }
  }

  /** The event is settled, and nothing says otherwise: no other record has its id, and the worker does
      not hold it. */
  predicate Final(s: State, e: Event) {
    && e.status != Pending && e.id in s.posts
    && (forall i :: 0 <= i < |s.box| && s.box[i].id == e.id ==> s.box[i] == e)
    && (forall j :: 0 <= j < |s.batch| ==> s.batch[j].id != e.id)
  }

  lemma SettledIsFinal(s: State, e: Event, max: nat)
    requires Inv(s, max) && Settled(s, e)
    ensures Final(s, e)
  {
    var k :| 0 <= k < |s.box| && s.box[k] == e;
    assert Sound(s, s.box[k], max);
  }

  lemma FinalStep(s: State, a: Act, e: Event, max: nat, size: nat)
    requires Final(s, e) && Enabled(s, a)
    ensures Final(Next(s, a, max, size), e)
  {
    if a.Take? {
      forall j | 0 <= j < |Batch(s.box, size)| ensures Batch(s.box, size)[j].id != e.id {
        var k := BatchAt(s.box, size, j);
      }
    }
  }

  lemma {:induction false} FinalRun(s: State, run: seq<Act>, e: Event, max: nat, size: nat)
    requires Final(s, e) && Legal(s, run, max, size)
    ensures Final(After(s, run, max, size), e) && Posts(s, run, e.id, max, size) == 0
    decreases |run|
  {
    if run != [] {
      FinalStep(s, run[0], e, max, size);
      FinalRun(Next(s, run[0], max, size), run[1..], e, max, size);
    }
  }

  /** Delivered and dead are final in every run, whatever is evicted: the event is never posted again, and
      no record of it ever says anything else. */
  lemma SettledForGood(s: State, run: seq<Act>, e: Event, max: nat, size: nat)
    requires Inv(s, max) && Legal(s, run, max, size) && Settled(s, e)
    ensures Posts(s, run, e.id, max, size) == 0
    ensures forall x :: x in After(s, run, max, size).box && x.id == e.id ==> x == e
  {
    SettledIsFinal(s, e, max);
    FinalRun(s, run, e, max, size);
  }

  lemma SuccessStays(s: State, a: Act, id: string, max: nat, size: nat)
    requires Inv(s, max) && Enabled(s, a) && id in s.done
    ensures (a.Post? || a.Cut? ==> s.batch[0].id != id) && id in Next(s, a, max, size).done
  {
    if a.Post? || a.Cut? { assert Sound(s, s.batch[0], max); }
  }

  /** After a recorded success an event is never posted again, whatever the outbox evicts. */
  lemma {:induction false} NoPostAfterSuccess(s: State, run: seq<Act>, id: string, max: nat, size: nat)
    requires Inv(s, max) && max > 0 && Legal(s, run, max, size) && id in s.done
    ensures Posts(s, run, id, max, size) == 0
    decreases |run|
  {
    if run != [] {
      SuccessStays(s, run[0], id, max, size);
      StepKeeps(s, run[0], max, size);
      NoPostAfterSuccess(Next(s, run[0], max, size), run[1..], id, max, size);
    }
  }

  // ----- Progress -----

  /** The attempts still owed to an event, and to all of them. */
  function Owed(e: Event, max: nat): nat {
    if e.status == Pending && e.attempts < max then max - e.attempts else 0
  }

  function Debt(box: seq<Event>, max: nat): nat {
    if box == [] then 0 else Debt(Init(box), max) + Owed(Last(box), max)
  }

  lemma {:induction false} DebtMarked(box: seq<Event>, k: nat, status: Status, attempts: nat, max: nat)
    requires Distinct(box) && k < |box|
    ensures Debt(Marked(box, box[k].id, status, attempts), max) + Owed(box[k], max) ==
            Debt(box, max) + Owed(Event(box[k].id, status, attempts), max)
  {
    var id := box[k].id;
    var after := Marked(box, id, status, attempts);
    assert Init(after) == Marked(Init(box), id, status, attempts);
    if k < |box| - 1 {
      DebtMarked(Init(box), k, status, attempts, max);
    } else {
      assert Init(after) == Init(box);
    }
  }

  /** Every post of a held event pays at least one attempt. */
  lemma PostPays(box: seq<Event>, k: nat, ok: bool, max: nat)
    requires Distinct(box) && k < |box| && box[k].status == Pending && box[k].attempts < max
    ensures Debt(Posted(box, box[k], ok, max), max) < Debt(box, max)
  {
    DebtMarked(box, k, Verdict(box[k].attempts + 1, ok, max), box[k].attempts + 1, max);
  }

  /** The batch is still in the box as it was taken, below the limit. */
  predicate Held(box: seq<Event>, batch: seq<Event>, max: nat) {
    && Distinct(box) && Distinct(batch)
    && forall i :: 0 <= i < |batch| ==> batch[i] in box && batch[i].status == Pending && batch[i].attempts < max
  }

  /** A tick that is not stopped pays at least one attempt for each event of its batch. */
  lemma {:induction false} TickPays(box: seq<Event>, batch: seq<Event>, answers: seq<bool>, max: nat)
    requires Held(box, batch, max) && |answers| >= |batch|
    ensures Debt(Ticked(box, batch, answers, max), max) + |batch| <= Debt(box, max)
    decreases |batch|
  {
    if batch != [] {
      var k :| 0 <= k < |box| && box[k] == batch[0];
      PostPays(box, k, answers[0], max);
      var box' := Posted(box, batch[0], answers[0], max);
      forall i | 0 <= i < |batch[1..]| ensures batch[1..][i] in box' {
        assert batch[1..][i] == batch[i + 1];
        var j :| 0 <= j < |box| && box[j] == batch[i + 1];
        assert box'[j] == box[j];
      }
      TickPays(box', batch[1..], answers[1..], max);
    }
  }

  /** Ticks in a row; the n-th one is answered by answers[n]. */
  function Ticks(box: seq<Event>, answers: seq<seq<bool>>, max: nat, size: nat): seq<Event>
    decreases |answers|
  {
    if answers == [] then box else Ticks(Ticked(box, Batch(box, size), answers[0], max), answers[1..], max, size)
  }

  /** Every event is pending below the limit, or settled. */
  predicate Limited(box: seq<Event>, max: nat) {
    Distinct(box) && forall i :: 0 <= i < |box| ==> box[i].status == Pending ==> box[i].attempts < max
  }

  lemma {:induction false} TickLimited(box: seq<Event>, batch: seq<Event>, answers: seq<bool>, max: nat)
    requires Limited(box, max)
    ensures Limited(Ticked(box, batch, answers, max), max)
    decreases |batch|
  {
    if batch != [] && answers != [] {
      var box' := Posted(box, batch[0], answers[0], max);
      assert forall i :: 0 <= i < |box'| ==> box'[i].id == box[i].id;
      TickLimited(box', batch[1..], answers[1..], max);
    }
  }

  lemma BatchHeld(box: seq<Event>, size: nat, max: nat)
    requires Limited(box, max)
    ensures Held(box, Batch(box, size), max)
    ensures size > 0 && Batch(box, size) == [] ==> Waiting(box) == []
  {
    WaitingDistinct(box);
    forall i | 0 <= i < |Batch(box, size)|
      ensures Batch(box, size)[i] in box && Batch(box, size)[i].status == Pending && Batch(box, size)[i].attempts < max
    {
      var k := BatchAt(box, size, i);
    }
  }

  lemma {:induction false} WaitingOwes(box: seq<Event>, max: nat)
    requires Limited(box, max) && Debt(box, max) == 0
    ensures Waiting(box) == []
  {
    if box != [] {
      assert forall i :: 0 <= i < |Init(box)| ==> Init(box)[i] == box[i];
      WaitingOwes(Init(box), max);
      assert Owed(Last(box), max) == 0;
    }
  }

  /** Without new events, as many unstopped ticks as attempts are owed leave nothing pending,
      whatever the answers are. */
  lemma {:induction false} OutboxDrains(box: seq<Event>, answers: seq<seq<bool>>, max: nat, size: nat)
    requires Limited(box, max) && size > 0 && |answers| >= Debt(box, max)
    requires forall i :: 0 <= i < |answers| ==> |answers[i]| >= size
    ensures Waiting(Ticks(box, answers, max, size)) == []
    decreases |answers|
  {
    if answers == [] {
      WaitingOwes(box, max);
    } else {
      var batch := Batch(box, size);
      var box' := Ticked(box, batch, answers[0], max);
      BatchHeld(box, size, max);
      TickLimited(box, batch, answers[0], max);
      TickPays(box, batch, answers[0], max);
      if batch == [] { NothingOwed(box, max); }
      OutboxDrains(box', answers[1..], max, size);
    }
  }

  lemma {:induction false} NothingOwed(box: seq<Event>, max: nat)
    requires Waiting(box) == []
    ensures Debt(box, max) == 0
  {
    if box != [] {
      NothingOwed(Init(box), max);
    }
  }

  // ----- Ticks as runs -----

  lemma ReachableIsLimited(s: State, max: nat)
    requires Inv(s, max)
    ensures Limited(s.box, max)
  {
    forall i | 0 <= i < |s.box| ensures s.box[i].status == Pending ==> s.box[i].attempts < max {
      assert Sound(s, s.box[i], max);
    }
  }

  function PostRun(answers: seq<bool>): seq<Act> {
    if answers == [] then [] else [Post(answers[0])] + PostRun(answers[1..])
  }

  /** What the worker holds was appended once. */
  predicate Known(s: State) {
    forall j :: 0 <= j < |s.batch| ==> s.batch[j].id in s.posts
  }

  lemma ReachableIsKnown(s: State, max: nat)
    requires Inv(s, max)
    ensures Known(s)
  {
    forall j | 0 <= j < |s.batch| ensures s.batch[j].id in s.posts { assert Sound(s, s.batch[j], max); }
  }

  /** The posts of a batch, one by one, do what the loop of the tick does. */
  lemma {:induction false} PostsTick(s: State, answers: seq<bool>, max: nat, size: nat)
    requires Known(s) && |answers| <= |s.batch|
    ensures Legal(s, PostRun(answers), max, size)
    ensures
      var s' := After(s, PostRun(answers), max, size);
      s'.box == Ticked(s.box, s.batch, answers, max) && s'.batch == s.batch[|answers|..]
    decreases |answers|
  {
    if answers != [] {
      var s1 := Next(s, Post(answers[0]), max, size);
      PostsTick(s1, answers[1..], max, size);
      OnePost(s, answers, max, size);
      assert s1.batch[|answers[1..]|..] == s.batch[|answers|..];
    } else {
      assert s.batch[0..] == s.batch;
    }
  }

  lemma OnePost(s: State, answers: seq<bool>, max: nat, size: nat)
    requires answers != [] && Enabled(s, Post(answers[0]))
    requires Legal(Next(s, Post(answers[0]), max, size), PostRun(answers[1..]), max, size)
    ensures Legal(s, PostRun(answers), max, size)
    ensures After(s, PostRun(answers), max, size) ==
            After(Next(s, Post(answers[0]), max, size), PostRun(answers[1..]), max, size)
  {
    assert PostRun(answers)[1..] == PostRun(answers[1..]);
  }

  lemma {:induction false} ExtraAnswers(box: seq<Event>, batch: seq<Event>, answers: seq<bool>, max: nat)
    requires |answers| >= |batch|
    ensures Ticked(box, batch, answers[..|batch|], max) == Ticked(box, batch, answers, max)
    decreases |batch|
  {
    if batch != [] {
      assert answers[..|batch|][1..] == answers[1..][..|batch[1..]|];
      ExtraAnswers(Posted(box, batch[0], answers[0], max), batch[1..], answers[1..], max);
    }
  }

  /** One unstopped tick of an idle worker, as a run. */
  lemma TickRuns(s: State, answers: seq<bool>, max: nat, size: nat) returns (run: seq<Act>)
    requires Inv(s, max) && max > 0 && s.batch == [] && |answers| >= |Batch(s.box, size)|
    ensures Legal(s, run, max, size) && forall i :: 0 <= i < |run| ==> !run[i].Append?
    ensures
      var s' := After(s, run, max, size);
      s'.box == Ticked(s.box, Batch(s.box, size), answers, max) && s'.batch == [] && Inv(s', max)
  {
    var s1 := Next(s, Take, max, size);
    TakeKeeps(s, max, size);
    ReachableIsKnown(s1, max);
    var used := answers[..|s1.batch|];
    PostsTick(s1, used, max, size);
    ExtraAnswers(s1.box, s1.batch, answers, max);
    PostsOnly(used);
    run := [Take] + PostRun(used);
    assert run[1..] == PostRun(used);
    RunKeeps(s, run, max, size);
  }

  lemma {:induction false} PostsOnly(answers: seq<bool>)
    ensures forall i :: 0 <= i < |PostRun(answers)| ==> PostRun(answers)[i].Post?
  {
    if answers != [] { PostsOnly(answers[1..]); }
  }

  lemma {:induction false} Concat(s: State, a: seq<Act>, b: seq<Act>, max: nat, size: nat)
    requires Legal(s, a, max, size) && Legal(After(s, a, max, size), b, max, size)
    ensures Legal(s, a + b, max, size) && After(s, a + b, max, size) == After(After(s, a, max, size), b, max, size)
    decreases |a|
  {
    if a == [] {
      assert a + b == b;
    } else {
      assert (a + b)[1..] == a[1..] + b;
      Concat(Next(s, a[0], max, size), a[1..], b, max, size);
    }
  }

  lemma {:induction false} TicksRun(s: State, answers: seq<seq<bool>>, max: nat, size: nat) returns (run: seq<Act>)
    requires Inv(s, max) && max > 0 && s.batch == [] && forall i :: 0 <= i < |answers| ==> |answers[i]| >= size
    ensures Legal(s, run, max, size) && forall i :: 0 <= i < |run| ==> !run[i].Append?
    ensures After(s, run, max, size).box == Ticks(s.box, answers, max, size)
    decreases |answers|
  {
    run := [];
    if answers != [] {
      var first := TickRuns(s, answers[0], max, size);
      var rest := TicksRun(After(s, first, max, size), answers[1..], max, size);
      Concat(s, first, rest, max, size);
      run := first + rest;
    }
  }

  /** From every reachable state with an idle worker, as many unstopped ticks as attempts are owed are a
      run without appends that leaves nothing pending, whatever the answers. */
  lemma RunDrains(before: seq<Act>, answers: seq<seq<bool>>, max: nat, size: nat) returns (run: seq<Act>)
    requires max > 0 && size > 0 && Legal(Start, before, max, size) && After(Start, before, max, size).batch == []
    requires |answers| >= Debt(After(Start, before, max, size).box, max)
    requires forall i :: 0 <= i < |answers| ==> |answers[i]| >= size
    ensures
      var s := After(Start, before, max, size);
      && Legal(s, run, max, size) && (forall i :: 0 <= i < |run| ==> !run[i].Append?)
      && After(s, run, max, size).box == Ticks(s.box, answers, max, size)
      && Waiting(After(s, run, max, size).box) == []
  {
    var s := After(Start, before, max, size);
    RunKeeps(Start, before, max, size);
    ReachableIsLimited(s, max);
    OutboxDrains(s.box, answers, max, size);
    run := TicksRun(s, answers, max, size);
  }

  /** With one attempt allowed, an event is posted twice if the worker is cancelled in the first post. */
  lemma CutPostRepeats(id: string)
    ensures
      var run := [Append(id)] + ([Take, Cut] + [Take, Post(false)]);
      Legal(Start, run, 1, 1) && Posts(Start, run, id, 1, 1) == 2
  {
    var e := Event(id, Pending, 0);
    var s1 := State([e], [], map[id := 0], {});
    assert Next(Start, Append(id), 1, 1) == s1;
    assert Waiting([e]) == [e] by { assert Init([e]) == [] && Waiting([]) == []; }
    var s2 := s1.(batch := [e]);
    assert Next(s1, Take, 1, 1) == s2 && Next(s2, Cut, 1, 1) == s1;
    var last := [Post(false)] + [];
    OneMore(s2, Post(false), [], id);
    OneMore(s1, Take, last, id);
    OneMore(s2, Cut, [Take] + last, id);
    OneMore(s1, Take, [Cut] + ([Take] + last), id);
    OneMore(Start, Append(id), [Take] + ([Cut] + ([Take] + last)), id);
    assert [Append(id)] + ([Take, Cut] + [Take, Post(false)]) == [Append(id)] + ([Take] + ([Cut] + ([Take] + last)));
  }

  lemma OneMore(s: State, a: Act, run: seq<Act>, id: string)
    requires Enabled(s, a) && Legal(Next(s, a, 1, 1), run, 1, 1)
    ensures Legal(s, [a] + run, 1, 1)
    ensures Posts(s, [a] + run, id, 1, 1)
            == Posts(Next(s, a, 1, 1), run, id, 1, 1) + if (a.Post? || a.Cut?) && s.batch[0].id == id then 1 else 0
  {
    assert ([a] + run)[1..] == run;
  }
}
