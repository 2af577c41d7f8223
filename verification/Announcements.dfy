/** Announcements over whole runs: what the frontend has been told exists when a
    synthetic event reaches it, with writes resolved one by one and with writes
    waiting in the queue. */
module Announcements {
  import opened Json
  import opened EntityCache
  import opened Watcher
  import opened Replica
  import opened EventQueue
  import opened Convergence
  import opened Delivery
  import opened FanOutEvents
  import opened Lifecycle

  /** The latest Created or Removed of `k` in the log is a Created; `preloaded`
      when there is none. Field changes do not count. */
  predicate Standing(log: seq<WatchEvent>, k: Key, preloaded: bool) {
    if log == [] then preloaded
    else
      var last := log[|log| - 1];
      if Announces(last, k) && !last.EntityFieldChanged? then last.EntityCreated?
      else Standing(log[..|log| - 1], k, preloaded)
  }

  /** Every FieldChanged of the log, primary or synthetic, speaks of an entity
      that was preloaded or created before it and not removed since. */
  ghost predicate CreatedFirst(log: seq<WatchEvent>, preloaded: set<Key>) {
    forall j :: 0 <= j < |log| && log[j].EntityFieldChanged? ==>
      Standing(log[..j], Key(log[j].kind, log[j].id), Key(log[j].kind, log[j].id) in preloaded)
  }

  function Sent(sc: Schema, s: System, a: Action): seq<WatchEvent>
    requires a.Deliver? ==> s.queue != []
  {
    if a.Deliver? then Resolve(Now(sc, s), s.cache, true, s.bridge, s.queue[0]).out else []
  }

  /** Everything a run sends to the frontend. */
  ghost function Output(sc: Schema, s: System, run: seq<Action>): seq<WatchEvent>
    requires Legal(sc, s, run)
    decreases |run|
  {
    if run == [] then []
    else
      Sent(sc, s, run[0]) + Output(sc, Step(sc, s, run[0]), run[1..])
  }

  /** Each write waits until the one before it has been resolved. */
  ghost predicate Synced(sc: Schema, s: System, run: seq<Action>)
    requires Legal(sc, s, run)
    decreases |run|
  {
    run == [] || ((run[0].Deliver? || s.queue == []) && Synced(sc, Step(sc, s, run[0]), run[1..]))
  }

  ghost predicate SameKeys(seen: set<Key>, c: Cache) {
    forall k :: k in seen <==> Has(c, k)
  }

  /** A start at which the scan found exactly the live entities. */
  ghost predicate ScannedStart(sc: Schema, s: System) {
    Initial(sc, s) && SameKeys(s.bridge.seen, s.cache)
  }

  // ---- what the bridge knows trails what the writers did -----------------------------------

  /** The cache right after each write whose event still waits. */
  function History(sc: Schema, s: System, h: seq<Cache>, a: Action): seq<Cache>
    requires a.Deliver? ==> s.queue != []
  {
    var s' := Step(sc, s, a);
    if a.Deliver? then (if h == [] then [] else h[1..])
    else if |s'.queue| == |s.queue| then h else h + [s'.cache]
  }

  ghost function HistoryAfter(sc: Schema, s: System, h: seq<Cache>, run: seq<Action>): seq<Cache>
    requires Legal(sc, s, run)
    decreases |run|
  {
    if run == [] then h else HistoryAfter(sc, Step(sc, s, run[0]), History(sc, s, h, run[0]), run[1..])
  }

  /** Once a waiting event is resolved, `seen` is what was live when it was written. */
  ghost predicate Trails(s: System, h: seq<Cache>) {
    WrittenAs(s.bridge.seen, s.queue, h) && SameKeys(SeenAfterAll(s.bridge.seen, s.queue), s.cache)
  }

  ghost predicate WrittenAs(seen: set<Key>, q: seq<EntityEvent>, h: seq<Cache>) {
    |h| == |q| && forall i :: 0 <= i < |h| ==> SameKeys(SeenAfterAll(seen, q[..i + 1]), h[i])
  }

  lemma WrittenTail(seen: set<Key>, q: seq<EntityEvent>, h: seq<Cache>)
    requires WrittenAs(seen, q, h) && q != []
    ensures WrittenAs(SeenAfter(seen, q[0]), q[1..], h[1..])
  {
    forall i | 0 <= i < |h[1..]| ensures SameKeys(SeenAfterAll(SeenAfter(seen, q[0]), q[1..][..i + 1]), h[1..][i]) {
      assert q[..i + 2][1..] == q[1..][..i + 1];
      assert SameKeys(SeenAfterAll(seen, q[..i + 2]), h[i + 1]);
    }
  }

  lemma SeenOne(seen: set<Key>, e: EntityEvent)
    ensures SeenAfterAll(seen, [e]) == SeenAfter(seen, e)
  {
    assert [e][1..] == [];
  }

  lemma TrailsAppend(s: System, h: seq<Cache>, e: EntityEvent, c: Cache)
    requires Trails(s, h) && SameKeys(SeenAfter(SeenAfterAll(s.bridge.seen, s.queue), e), c)
    ensures Trails(s.(cache := c, queue := s.queue + [e]), h + [c])
  {
    var q := s.queue + [e];
    SeenAppend(s.bridge.seen, s.queue, e);
    forall i | 0 <= i < |h + [c]| ensures SameKeys(SeenAfterAll(s.bridge.seen, q[..i + 1]), (h + [c])[i]) {
      if i < |h| {
        assert q[..i + 1] == s.queue[..i + 1];
      } else {
        assert q[..i + 1] == q;
      }
    }
  }

  lemma TrailsDeliver(sc: Schema, s: System, h: seq<Cache>)
    requires WellFormed(sc) && Trails(s, h) && s.queue != []
    ensures Trails(Step(sc, s, Deliver), h[1..])
  {
    DeliveredNow(sc, s);
    WrittenTail(s.bridge.seen, s.queue, h);
  }

  lemma TrailsStep(sc: Schema, s: System, h: seq<Cache>, a: Action)
    requires WellFormed(sc) && Unique(s.cache) && Trails(s, h) && Enabled(sc, s, a)
    ensures Unique(Step(sc, s, a).cache) && Trails(Step(sc, s, a), History(sc, s, h, a))
  {
    match a {
      case Put(e, changes) =>
        UniqueInsert(s.cache, e);
        if Step(sc, s, a) != s {
          forall k ensures Find(Insert(s.cache, e), k) == if k == e.KeyOf() then Some(e) else Find(s.cache, k) { FindInsert(s.cache, e, k); }
          TrailsAppend(s, h, EntityChanged(e.kind, e.id, changes), Insert(s.cache, e));
        }
      case Remove(k0) =>
        UniqueDrop(s.cache, k0);
        forall k ensures Find(Drop(s.cache, k0), k) == if k == k0 then None else Find(s.cache, k) { FindDrop(s.cache, k0, k); }
        TrailsAppend(s, h, EntityDeleted(k0.kind, k0.id), Drop(s.cache, k0));
      case Attach(kind, filename, removed) =>
        TrailsAppend(s, h, AttachmentTouched(kind, filename, removed), s.cache);
      case Elsewhere(_) =>
      case Deliver =>
        TrailsDeliver(sc, s, h);
    }
  }

  lemma {:induction false} TrailsRun(sc: Schema, s: System, h: seq<Cache>, run: seq<Action>)
    requires WellFormed(sc) && Unique(s.cache) && Trails(s, h) && Legal(sc, s, run)
    ensures Unique(After(sc, s, run).cache) && Trails(After(sc, s, run), HistoryAfter(sc, s, h, run))
    decreases |run|
  {
    if run != [] {
      TrailsStep(sc, s, h, run[0]);
      TrailsRun(sc, Step(sc, s, run[0]), History(sc, s, h, run[0]), run[1..]);
    }
  }

  /** In every reachable state, resolving the head of the queue sends a synthetic
      event for a task not yet announced exactly when the event fans out, the
      task moved, and it was not on the board yet when the head was written; its
      own event then still waits. */
  lemma UnannouncedSynthetic(sc: Schema, s: System, run: seq<Action>, id: string)
    requires WellFormed(sc) && ScannedStart(sc, s) && Legal(sc, s, run)
    requires After(sc, s, run).queue != []
    ensures var t := After(sc, s, run);
            var r := Resolve(Now(sc, t), t.cache, true, t.bridge, t.queue[0]);
            var written := HistoryAfter(sc, s, [], run);
            && |written| == |t.queue|
            && (Mentions(r.out[1..], id) && TaskKey(id) !in r.bridge.seen <==>
                  FansOut(t.queue[0], t.bridge.seen) && Moved(Now(sc, t), t.cache, t.bridge.snaps, t.queue[0], id) &&
                  !Has(written[0], TaskKey(id)))
            && (Mentions(r.out[1..], id) && TaskKey(id) !in r.bridge.seen ==> Pending(t.queue[1..], TaskKey(id)))
  {
    TrailsRun(sc, s, [], run);
    var t, written := After(sc, s, run), HistoryAfter(sc, s, [], run);
    var e := t.queue[0];
    ResolvedEvents(Now(sc, t), t.cache, t.bridge, e, id);
    ResolveShape(Now(sc, t), t.cache, t.bridge, e);
    assert t.queue[..1] == [e];
    SeenOne(t.bridge.seen, e);
    if Moved(Now(sc, t), t.cache, t.bridge.snaps, e, id) && TaskKey(id) !in SeenAfter(t.bridge.seen, e) {
      assert TaskKey(id) in SeenAfterAll(t.bridge.seen, t.queue);
      UnseenPending(SeenAfter(t.bridge.seen, e), t.queue[1..], TaskKey(id));
    }
  }

  // ---- the log of a synced run ---------------------------------------------------------------

  lemma {:induction false} StandingTail(log: seq<WatchEvent>, tail: seq<WatchEvent>, k: Key, preloaded: bool)
    requires forall i :: 0 <= i < |tail| ==> tail[i].EntityFieldChanged?
    ensures Standing(log + tail, k, preloaded) == Standing(log, k, preloaded)
    decreases |tail|
  {
    if tail == [] {
      assert log + tail == log;
    } else {
      var n := |tail| - 1;
      assert (log + tail)[..|log + tail| - 1] == log + tail[..n];
      assert (log + tail)[|log + tail| - 1] == tail[n];
      StandingTail(log, tail[..n], k, preloaded);
    }
  }

  /** The log tells, for every entity, what the bridge has announced. */
  ghost predicate LogTells(log: seq<WatchEvent>, preloaded: set<Key>, seen: set<Key>) {
    forall k :: k in seen <==> Standing(log, k, k in preloaded)
  }

  lemma PrimaryTells(sc: Schema, c: Cache, b: Bridge, e: EntityEvent, log: seq<WatchEvent>, preloaded: set<Key>)
    requires LogTells(log, preloaded, b.seen)
    ensures var r := Resolve(sc, c, true, b, e);
            LogTells(log + [r.out[0]], preloaded, r.bridge.seen) &&
            (r.out[0].EntityFieldChanged? ==> Key(r.out[0].kind, r.out[0].id) in b.seen)
  {
    var r := Resolve(sc, c, true, b, e);
    var p := r.out[0];
    assert (log + [p])[..|log + [p]| - 1] == log;
    forall k ensures k in r.bridge.seen <==> Standing(log + [p], k, k in preloaded) {
      PrimaryMeaning(sc, Input(e, c, true), b, k);
    }
    if p.EntityFieldChanged? { PrimaryMeaning(sc, Input(e, c, true), b, Key(p.kind, p.id)); }
  }

  /** Synthetic events that speak of announced tasks only keep both facts. */
  lemma TellsJoin(log: seq<WatchEvent>, out: seq<WatchEvent>, preloaded: set<Key>, seen: set<Key>, seen': set<Key>)
    requires out != [] && CreatedFirst(log, preloaded)
    requires LogTells(log, preloaded, seen) && LogTells(log + [out[0]], preloaded, seen')
    requires out[0].EntityFieldChanged? ==> Key(out[0].kind, out[0].id) in seen
    requires forall i :: 1 <= i < |out| ==> out[i].EntityFieldChanged? && out[i].kind == "task"
    requires forall id :: Mentions(out[1..], id) ==> TaskKey(id) in seen'
    ensures LogTells(log + out, preloaded, seen') && CreatedFirst(log + out, preloaded)
  {
    var told, rest, all, n := log + [out[0]], out[1..], log + out, |log|;
    assert all == told + rest;
    forall k ensures k in seen' <==> Standing(told + rest, k, k in preloaded) {
      StandingTail(told, rest, k, k in preloaded);
    }
    forall j | 0 <= j < |all| && all[j].EntityFieldChanged?
      ensures Standing(all[..j], Key(all[j].kind, all[j].id), Key(all[j].kind, all[j].id) in preloaded)
    {
      var k := Key(all[j].kind, all[j].id);
      if j < n {
        assert all[j] == log[j] && all[..j] == log[..j];
      } else if j == n {
        assert all[..j] == log;
      } else {
        assert all[j] == rest[j - n - 1] && all[..j] == told + rest[..j - n - 1];
        assert Mentions(rest, all[j].id);
        StandingTail(told, rest[..j - n - 1], k, k in preloaded);
      }
    }
  }

  lemma SyncedSynthetic(sc: Schema, c: Cache, b: Bridge, e: EntityEvent, id: string)
    requires WellFormed(sc) && Unique(c) && SameKeys(SeenAfter(b.seen, e), c)
    requires Mentions(Resolve(sc, c, true, b, e).out[1..], id)
    ensures TaskKey(id) in Resolve(sc, c, true, b, e).bridge.seen
  {
    ResolvedEvents(sc, c, b, e, id);
    ResolveShape(sc, c, b, e);
  }

  lemma HeadTells(sc: Schema, c: Cache, b: Bridge, e: EntityEvent, log: seq<WatchEvent>, preloaded: set<Key>)
    requires WellFormed(sc) && Unique(c) && SameKeys(SeenAfter(b.seen, e), c)
    requires LogTells(log, preloaded, b.seen) && CreatedFirst(log, preloaded)
    ensures var r := Resolve(sc, c, true, b, e);
            LogTells(log + r.out, preloaded, r.bridge.seen) && CreatedFirst(log + r.out, preloaded)
  {
    var r := Resolve(sc, c, true, b, e);
    forall id | Mentions(r.out[1..], id) ensures TaskKey(id) in r.bridge.seen {
      SyncedSynthetic(sc, c, b, e, id);
    }
    SyntheticOnce(sc, c, b, e);
    PrimaryTells(sc, c, b, e, log, preloaded);
    TellsJoin(log, r.out, preloaded, b.seen, r.bridge.seen);
  }

  /** What every step of a synced run keeps. */
  ghost predicate Telling(sc: Schema, s: System, h: seq<Cache>, log: seq<WatchEvent>, preloaded: set<Key>) {
    && Unique(s.cache) && Trails(s, h) && |s.queue| <= 1
    && LogTells(log, preloaded, s.bridge.seen) && CreatedFirst(log, preloaded)
  }

  lemma SyncedStep(sc: Schema, s: System, h: seq<Cache>, a: Action, log: seq<WatchEvent>, preloaded: set<Key>)
    requires WellFormed(sc) && Telling(sc, s, h, log, preloaded) && Enabled(sc, s, a)
    requires a.Deliver? || s.queue == []
    ensures Telling(sc, Step(sc, s, a), History(sc, s, h, a), log + Sent(sc, s, a), preloaded)
  {
    TrailsStep(sc, s, h, a);
    if a.Deliver? {
      SeenOne(s.bridge.seen, s.queue[0]);
      assert s.queue == [s.queue[0]];
      HeadTells(Now(sc, s), s.cache, s.bridge, s.queue[0], log, preloaded);
    } else {
      assert log + [] == log;
    }
  }

  lemma OutputSplit(sc: Schema, s: System, run: seq<Action>, log: seq<WatchEvent>)
    requires Legal(sc, s, run) && run != []
    ensures log + Output(sc, s, run) == log + Sent(sc, s, run[0]) + Output(sc, Step(sc, s, run[0]), run[1..])
  {
  }

  lemma {:induction false} SyncedLog(sc: Schema, s: System, h: seq<Cache>, run: seq<Action>, log: seq<WatchEvent>,
                                     preloaded: set<Key>)
    requires WellFormed(sc) && Telling(sc, s, h, log, preloaded) && Legal(sc, s, run) && Synced(sc, s, run)
    ensures CreatedFirst(log + Output(sc, s, run), preloaded)
    decreases |run|
  {
    if run == [] {
      assert log + [] == log;
    } else {
      OutputSplit(sc, s, run, log);
      SyncedStep(sc, s, h, run[0], log, preloaded);
      SyncedLog(sc, Step(sc, s, run[0]), History(sc, s, h, run[0]), run[1..], log + Sent(sc, s, run[0]), preloaded);
    }
  }

  /** With every write resolved before the next, no field change of a run,
      primary or synthetic, goes out before the Created of its entity. */
  lemma SyncedAnnouncedFirst(sc: Schema, s: System, run: seq<Action>)
    requires WellFormed(sc) && ScannedStart(sc, s) && Legal(sc, s, run) && Synced(sc, s, run)
    ensures CreatedFirst(Output(sc, s, run), s.bridge.seen)
  {
    SyncedLog(sc, s, [], run, [], s.bridge.seen);
    assert [] + Output(sc, s, run) == Output(sc, s, run);
  }

  // ---- without the discipline it fails ----------------------------------------------------------

  const NOTHING := Surroundings({}, "todo", "done", 0, 0, 0)

  /** An empty board, nothing read yet. */
  const EMPTY: System := System([], [], Bridge({}, map[]), map[], 0, _ => NOTHING, _ => NOTHING)

  /** A field change of `id` in the tail, behind a Created of another entity, is
      not preceded by a Created of its own. */
  lemma StrayFieldChange(out: seq<WatchEvent>, id: string)
    requires out != [] && out[0].EntityCreated? && !Announces(out[0], TaskKey(id)) && Mentions(out[1..], id)
    requires forall i :: 1 <= i < |out| ==> out[i].EntityFieldChanged? && out[i].kind == "task"
    ensures !CreatedFirst(out, {})
  {
    var i :| 0 <= i < |out[1..]| && out[1..][i].EntityFieldChanged? && out[1..][i].id == id;
    assert out[i + 1] == out[1..][i] && Key(out[i + 1].kind, out[i + 1].id) == TaskKey(id);
    assert out[..i + 1] == [out[0]] + out[1..i + 1];
    StandingTail([out[0]], out[1..i + 1], TaskKey(id), false);
    assert [out[0]][..0] == [] && !Standing([], TaskKey(id), false);
  }

  /** Resolving the creation of one task on a board that holds another one the
      bridge knows nothing of. */
  lemma StrangerMentioned(sc: Schema, c: Cache, e: EntityEvent, id: string)
    requires WellFormed(sc) && Unique(c) && Has(c, TaskKey(id))
    requires e.EntityChanged? && e.kind == "task" && e.id != id
    ensures !CreatedFirst(Resolve(sc, c, true, Bridge({}, map[]), e).out, {})
  {
    var b := Bridge({}, map[]);
    FreshTaskMoved(sc, c, id, e);
    ResolvedEvents(sc, c, b, e, id);
    ResolveShape(sc, c, b, e);
    SyntheticOnce(sc, c, b, e);
    StrayFieldChange(Resolve(sc, c, true, b, e).out, id);
  }

  lemma ThreeSteps(sc: Schema, s: System, a: Action, b: Action)
    requires !a.Deliver? && !b.Deliver? && Enabled(sc, s, a) && Enabled(sc, Step(sc, s, a), b)
    requires Step(sc, Step(sc, s, a), b).queue != []
    ensures var t := Step(sc, Step(sc, s, a), b);
            && Legal(sc, s, [a, b, Deliver])
            && Output(sc, s, [a, b, Deliver]) == Resolve(Now(sc, t), t.cache, true, t.bridge, t.queue[0]).out
  {
    var s1 := Step(sc, s, a);
    var t := Step(sc, s1, b);
    assert [a, b, Deliver][1..] == [b, Deliver] && [b, Deliver][1..] == [Deliver] && [Deliver][1..] == [];
    assert Legal(sc, t, [Deliver]) && Legal(sc, s1, [b, Deliver]);
    assert Output(sc, t, [Deliver]) == Resolve(Now(sc, t), t.cache, true, t.bridge, t.queue[0]).out + [];
    assert Output(sc, s1, [b, Deliver]) == [] + Output(sc, t, [Deliver]);
    assert Output(sc, s, [a, b, Deliver]) == [] + Output(sc, s1, [b, Deliver]);
  }

  /** Two tasks are created and the first event is resolved: the second task's
      computed fields go out before its Created. */
  lemma FieldChangeBeforeCreated(sc: Schema, a: Entity, b: Entity, ca: seq<FieldChange>, cb: seq<FieldChange>)
    requires WellFormed(sc) && a.kind == b.kind == "task" && a.id != b.id
    requires RawOnly(sc, "task", a.fields) && RawOnly(sc, "task", b.fields)
    requires IsDiff(map[], a.fields, ca) && IsDiff(map[], b.fields, cb)
    ensures var run := [Put(a, ca), Put(b, cb), Deliver];
            ScannedStart(sc, EMPTY) && Legal(sc, EMPTY, run) && !CreatedFirst(Output(sc, EMPTY, run), {})
  {
    TwoCreated(sc, a, b, ca, cb);
    ThreeSteps(sc, EMPTY, Put(a, ca), Put(b, cb));
    HeadMentionsStranger(sc, Step(sc, Step(sc, EMPTY, Put(a, ca)), Put(b, cb)), b.id);
  }

  lemma HeadMentionsStranger(sc: Schema, t: System, id: string)
    requires WellFormed(sc) && t.queue != [] && t.bridge == Bridge({}, map[]) && Unique(t.cache) && Has(t.cache, TaskKey(id))
    requires t.queue[0].EntityChanged? && t.queue[0].kind == "task" && t.queue[0].id != id
    ensures !CreatedFirst(Resolve(Now(sc, t), t.cache, true, t.bridge, t.queue[0]).out, {})
  {
    StrangerMentioned(Now(sc, t), t.cache, t.queue[0], id);
  }

  lemma TwoCreated(sc: Schema, a: Entity, b: Entity, ca: seq<FieldChange>, cb: seq<FieldChange>)
    requires a.kind == b.kind == "task" && a.id != b.id
    requires RawOnly(sc, "task", a.fields) && RawOnly(sc, "task", b.fields)
    requires IsDiff(map[], a.fields, ca) && IsDiff(map[], b.fields, cb)
    ensures var s1 := Step(sc, EMPTY, Put(a, ca));
            var s2 := Step(sc, s1, Put(b, cb));
            && Enabled(sc, EMPTY, Put(a, ca)) && Enabled(sc, s1, Put(b, cb))
            && s2.queue == [EntityChanged("task", a.id, ca), EntityChanged("task", b.id, cb)]
            && s2.bridge == Bridge({}, map[]) && Unique(s2.cache) && Has(s2.cache, TaskKey(b.id))
            && ScannedStart(sc, EMPTY)
  {
    assert Lowest([]) == None;
    assert Around(Now(sc, EMPTY), []) == NOTHING;
    UniqueInsert([], a);
    UniqueInsert(Insert([], a), b);
    FindInsert([], a, b.KeyOf());
    FindInsert(Insert([], a), b, b.KeyOf());
    assert TaskKey(b.id) == b.KeyOf();
  }
}
