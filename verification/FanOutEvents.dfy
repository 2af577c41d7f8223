/** Exactly which synthetic events one resolved cache event carries, and how
    they stand to what the bridge has already announced. */
module FanOutEvents {
  import opened Json
  import opened EntityCache
  import opened TaskGraph
  import opened Watcher
  import opened Replica
  import opened EventQueue
  import opened TaskLists
  import opened Convergence
  import opened Delivery

  /** The change list a fan-out owes one task. */
  function Owed(snaps: map<string, Fields>, fives: map<string, Fields>, id: string): seq<FieldChange>
    requires id in fives
  {
    DiffTo(Baseline(snaps, id), fives[id], TASK_COMPUTED_FIELDS)
  }

  /** The events are one field-change for each task but the trigger whose five
      fields moved, in list order, each carrying just what moved. */
  ghost predicate ExactEvents(events: seq<WatchEvent>, fives: map<string, Fields>, trigger: string,
                              snaps: map<string, Fields>) {
    && (forall i :: 0 <= i < |events| ==>
          && events[i].EntityFieldChanged? && events[i].kind == "task"
          && events[i].id != trigger && events[i].id in fives
          && events[i].changes == Owed(snaps, fives, events[i].id) && events[i].changes != [])
    && (forall i, j :: 0 <= i < j < |events| ==> events[i].id != events[j].id)
    && (forall id :: id in fives && id != trigger && Owed(snaps, fives, id) != [] ==> Mentions(events, id))
  }

  ghost predicate Mentions(events: seq<WatchEvent>, id: string) {
    exists i :: 0 <= i < |events| && events[i].EntityFieldChanged? && events[i].id == id
  }

  lemma OneMoreTask(events: seq<WatchEvent>, events': seq<WatchEvent>, id0: string, five: Fields,
                    fives: map<string, Fields>, trigger: string, snaps: map<string, Fields>)
    requires id0 !in fives && ExactEvents(events, fives, trigger, snaps)
    requires var changes := DiffTo(Baseline(snaps, id0), five, TASK_COMPUTED_FIELDS);
             events' == if id0 == trigger || changes == [] then events
                        else events + [EntityFieldChanged("task", id0, changes)]
    ensures ExactEvents(events', fives[id0 := five], trigger, snaps)
  {
    var fives' := fives[id0 := five];
    forall id | id in fives' && id != trigger && Owed(snaps, fives', id) != [] ensures Mentions(events', id) {
      if id == id0 {
        assert events'[|events|].id == id;
      } else {
        assert Owed(snaps, fives', id) == Owed(snaps, fives, id);
        assert Mentions(events, id);
        var i :| 0 <= i < |events| && events[i].EntityFieldChanged? && events[i].id == id;
        assert events'[i].id == id;
      }
    }
  }

  lemma VisitEvents(e: Entity, all: seq<Entity>, terminal: string, trigger: string,
                    snaps: map<string, Fields>, r: FanOutResult, fives: map<string, Fields>)
    requires e.id !in fives && r.snaps == snaps + fives
    ensures var changes := DiffTo(Baseline(snaps, e.id), FiveOf(e, all, terminal), TASK_COMPUTED_FIELDS);
            VisitTask(e, all, terminal, trigger, r).events ==
            if e.id == trigger || changes == [] then r.events
            else r.events + [EntityFieldChanged("task", e.id, changes)]
  {
    VisitIs(e, all, terminal, trigger, r);
    assert Baseline(snaps + fives, e.id) == Baseline(snaps, e.id);
  }

  lemma {:induction false} FanOutEventsExact(list: seq<Entity>, all: seq<Entity>, terminal: string, trigger: string,
                                             snaps: map<string, Fields>)
    requires UniqueIds(list)
    ensures ExactEvents(FanOut(list, all, terminal, trigger, snaps).events, Fives(list, all, terminal), trigger, snaps)
  {
    if list != [] {
      var n := |list| - 1;
      FanOutEventsExact(list[..n], all, terminal, trigger, snaps);
      FanOutReplay(list[..n], all, terminal, trigger, snaps, map[]);
      LastIsNew(list);
      FivesListed(list[..n], all, terminal, list[n].id);
      var r, fives := FanOut(list[..n], all, terminal, trigger, snaps), Fives(list[..n], all, terminal);
      VisitEvents(list[n], all, terminal, trigger, snaps, r, fives);
      OneMoreTask(r.events, VisitTask(list[n], all, terminal, trigger, r).events, list[n].id,
                  FiveOf(list[n], all, terminal), fives, trigger, snaps);
    }
  }

  /** A live task other than the trigger whose fields differ from its baseline. */
  ghost predicate Moved(sc: Schema, c: Cache, snaps: map<string, Fields>, e: EntityEvent, id: string) {
    && !e.AttachmentTouched?
    && id != e.id && Has(c, TaskKey(id))
    && DiffTo(Baseline(FanOutBase(snaps, e), id), FiveIn(sc, c, TaskKey(id)), TASK_COMPUTED_FIELDS) != []
  }

  lemma CacheFanOutExact(sc: Schema, c: Cache, trigger: string, snaps: map<string, Fields>)
    requires Unique(c)
    ensures var list := ListTasks(sc, c);
            ExactEvents(FanOutTasks(sc, c, trigger, snaps).events, Fives(list, list, TerminalColumn(c)), trigger, snaps)
  {
    ListTasksUnique(sc, c, Around(sc, c));
    var list := ListTasks(sc, c);
    FanOutEventsExact(list, list, TerminalColumn(c), trigger, snaps);
  }

  lemma FanOutMentions(sc: Schema, c: Cache, trigger: string, snaps: map<string, Fields>, id: string)
    requires Unique(c)
    ensures Mentions(FanOutTasks(sc, c, trigger, snaps).events, id) <==>
            id != trigger && Has(c, TaskKey(id)) &&
            DiffTo(Baseline(snaps, id), FiveIn(sc, c, TaskKey(id)), TASK_COMPUTED_FIELDS) != []
  {
    CacheFanOutExact(sc, c, trigger, snaps);
    FivesOfCache(sc, c, id);
    var events := FanOutTasks(sc, c, trigger, snaps).events;
    var list := ListTasks(sc, c);
    var fives := Fives(list, list, TerminalColumn(c));
    if id in fives { assert Owed(snaps, fives, id) == DiffTo(Baseline(snaps, id), FiveIn(sc, c, TaskKey(id)), TASK_COMPUTED_FIELDS); }
    if Mentions(events, id) {
      var i :| 0 <= i < |events| && events[i].EntityFieldChanged? && events[i].id == id;
      assert events[i].id in fives;
    }
  }

  /** After the primary event come exactly the moved tasks, and none at all
      unless the event touches the graph. */
  lemma ResolvedEvents(sc: Schema, c: Cache, b: Bridge, e: EntityEvent, id: string)
    requires WellFormed(sc) && Unique(c)
    ensures Mentions(Resolve(sc, c, true, b, e).out[1..], id) <==>
            FansOut(e, b.seen) && Moved(sc, c, b.snaps, e, id)
  {
    ResolveShape(sc, c, b, e);
    if FansOut(e, b.seen) {
      FanOutMentions(sc, c, e.id, FanOutBase(b.snaps, e), id);
    }
  }

  /** No task is mentioned twice, and each event carries just what moved. */
  lemma SyntheticOnce(sc: Schema, c: Cache, b: Bridge, e: EntityEvent)
    requires WellFormed(sc) && Unique(c)
    ensures var out := Resolve(sc, c, true, b, e).out;
            && (forall i :: 1 <= i < |out| ==>
                  && out[i].EntityFieldChanged? && out[i].kind == "task"
                  && out[i].changes == DiffTo(Baseline(FanOutBase(b.snaps, e), out[i].id),
                                              FiveIn(sc, c, TaskKey(out[i].id)), TASK_COMPUTED_FIELDS))
            && (forall i, j :: 1 <= i < j < |out| ==> out[i].id != out[j].id)
  {
    ResolveShape(sc, c, b, e);
    var out := Resolve(sc, c, true, b, e).out;
    if FansOut(e, b.seen) {
      CacheFanOutExact(sc, c, e.id, FanOutBase(b.snaps, e));
      var events := FanOutTasks(sc, c, e.id, FanOutBase(b.snaps, e)).events;
      forall i | 1 <= i < |out|
        ensures out[i] == events[i - 1] && out[i].EntityFieldChanged?
        ensures out[i].kind == "task" &&
                out[i].changes == DiffTo(Baseline(FanOutBase(b.snaps, e), out[i].id),
                                         FiveIn(sc, c, TaskKey(out[i].id)), TASK_COMPUTED_FIELDS)
      {
        assert out[i] == out[1..][i - 1];
        FivesOfCache(sc, c, events[i - 1].id);
      }
    } else {
      assert |out| == 1 + |out[1..]|;
    }
  }

  lemma QuietCost(sc: Schema, c: Cache, b: Bridge, e: EntityEvent, r: Resolved)
    requires ShapeOf(sc, c, b, e, r) && !e.AttachmentTouched? && !FansOut(e, b.seen)
    ensures |r.out| == 1
    ensures forall other :: other != e.id ==>
              (other in r.bridge.snaps <==> other in b.snaps) && Baseline(r.bridge.snaps, other) == Baseline(b.snaps, other)
  {
    assert |r.out| == 1 + |r.out[1..]|;
  }

  /** An edit that names neither a column nor a dependency of a known task costs
      one event and one snapshot, however many tasks there are. */
  lemma PlainEditVisitsNobody(sc: Schema, c: Cache, b: Bridge, id: string, changes: seq<FieldChange>)
    requires WellFormed(sc) && TaskKey(id) in b.seen && !TouchesFanoutField(changes)
    ensures var r := Resolve(sc, c, true, b, EntityChanged("task", id, changes));
            && |r.out| == 1
            && forall other :: other != id ==>
                 (other in r.bridge.snaps <==> other in b.snaps) && Baseline(r.bridge.snaps, other) == Baseline(b.snaps, other)
  {
    ResolveShape(sc, c, b, EntityChanged("task", id, changes));
    QuietCost(sc, c, b, EntityChanged("task", id, changes), Resolve(sc, c, true, b, EntityChanged("task", id, changes)));
  }

  lemma {:induction false} DiffFromNothing(five: Fields, names: seq<string>)
    requires names != [] && forall n :: n in names ==> n in five
    ensures DiffTo(map[], five, names) != []
  {
    assert names[|names| - 1] in names;
  }

  /** A live task without a snapshot always counts as moved. */
  lemma FreshTaskMoved(sc: Schema, c: Cache, id: string, e: EntityEvent)
    requires Has(c, TaskKey(id)) && e.EntityChanged? && e.id != id
    ensures Moved(sc, c, map[], e, id)
  {
    EnrichedTask(sc, c, TaskKey(id));
    DiffFromNothing(FiveIn(sc, c, TaskKey(id)), TASK_COMPUTED_FIELDS);
  }

  // ---- what a field-change event can refresh ----------------------------------------

  /** After a field-change event a derived field of the replica's copy is fresh
      exactly when it is a registered computed name with a value, or was already
      right. A field whose fresh value is null, and one the registry does not
      know, stay as they were. */
  lemma DerivedRefresh(sc: Schema, c: Cache, b: Bridge, s: Store, k: Key, changes: seq<FieldChange>, n: string)
    requires WellFormed(sc) && Has(c, k) && k in b.seen && n in sc.derived(k.kind)
    requires EventRaw(sc, EntityChanged(k.kind, k.id, changes))
    ensures var fresh_ := At(ReadEnriched(sc, c, k.kind, k.id).value.fields, n);
            var s1 := ApplyEvent(s, PrimaryOf(sc, c, b, k.kind, k.id, changes));
            At(FieldsOf(s1, k), n) == fresh_ <==>
            (n in ComputedNames(sc, k.kind) && fresh_ != Null) || At(FieldsOf(s, k), n) == fresh_
  {
    var e := ReadEnriched(sc, c, k.kind, k.id).value;
    FieldChangedAt(sc, k.kind, k.id, e, changes, s, n);
    AssignedUnnamed(changes, n, At(FieldsOf(s, k), n));
  }

  /** A stored field that reads rewrite is sent as stored: after a field-change
      event it reads as a fresh read does exactly when the event names it and
      its stored value is the fresh one, or does not and it was right already. */
  lemma RewrittenRefresh(sc: Schema, c: Cache, b: Bridge, s: Store, k: Key, changes: seq<FieldChange>, n: string)
    requires WellFormed(sc) && Has(c, k) && k in b.seen && n in sc.rewritten(k.kind) && !(k.kind == "task" && IsFive(n))
    ensures var now := At(ReadEnriched(sc, c, k.kind, k.id).value.fields, n);
            var s1 := ApplyEvent(s, PrimaryOf(sc, c, b, k.kind, k.id, changes));
            At(FieldsOf(s1, k), n) == now <==> Assigned(changes, n, At(FieldsOf(s, k), n)) == now
  {
    var e := ReadEnriched(sc, c, k.kind, k.id).value;
    FieldChangedAt(sc, k.kind, k.id, e, changes, s, n);
    ComputedNamesMembers(sc, k.kind, n);
    assert n in sc.computed(k.kind) ==> n in sc.derived(k.kind);
  }
}
