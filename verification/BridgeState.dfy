/** The bridge as the program runs it: per-board state updated in place, one
    cache event at a time. Every method is tied to the functions of `Watcher`. */
module BridgeState {
  import opened Json
  import opened EntityCache
  import opened TaskGraph
  import opened Sorting
  import opened Watcher

  class BridgeState {
    var seen: set<Key>
    var taskSnapshots: map<string, Fields>

    constructor (preloaded: set<Key>)
      ensures View() == Bridge(preloaded, map[])
    {
      seen := preloaded;
      taskSnapshots := map[];
    }

    function View(): Bridge
      reads this
    {
      Bridge(seen, taskSnapshots)
    }
  }

  /** `TaskComputedSnapshot::from_entity` */
  method FromEntity(e: Entity) returns (snapshot: Fields)
    ensures snapshot == SnapshotOf(e.fields)
  {
    snapshot := map[];
    for i := 0 to |TASK_COMPUTED_FIELDS|
      invariant forall n :: n in snapshot <==> n in e.fields && n in TASK_COMPUTED_FIELDS[..i]
      invariant forall n :: n in snapshot ==> snapshot[n] == e.fields[n]
    {
      var name := TASK_COMPUTED_FIELDS[i];
      if name in e.fields {
        snapshot := snapshot[name := e.fields[name]];
      }
      assert TASK_COMPUTED_FIELDS[..i + 1] == TASK_COMPUTED_FIELDS[..i] + [name];
    }
    assert TASK_COMPUTED_FIELDS[..|TASK_COMPUTED_FIELDS|] == TASK_COMPUTED_FIELDS;
  }

  /** `TaskComputedSnapshot::diff_to` */
  method SnapshotDiff(old_: Fields, new_: Fields) returns (changes: seq<FieldChange>)
    ensures changes == DiffTo(old_, new_, TASK_COMPUTED_FIELDS)
  {
    changes := [];
    for i := 0 to |TASK_COMPUTED_FIELDS|
      invariant changes == DiffTo(old_, new_, TASK_COMPUTED_FIELDS[..i])
    {
      var name := TASK_COMPUTED_FIELDS[i];
      assert TASK_COMPUTED_FIELDS[..i + 1][..i] == TASK_COMPUTED_FIELDS[..i];
      if name in new_ {
        var same := name in old_ && old_[name] == new_[name];
        if !same {
          changes := changes + [FieldChange(name, new_[name])];
        }
      }
    }
    assert TASK_COMPUTED_FIELDS[..|TASK_COMPUTED_FIELDS|] == TASK_COMPUTED_FIELDS;
  }

  lemma FanOutNext(list: seq<Entity>, i: nat, all: seq<Entity>, terminal: string, trigger: string, snaps: map<string, Fields>)
    requires i < |list|
    ensures FanOut(list[..i + 1], all, terminal, trigger, snaps) ==
            Visit(list[i].id, SnapshotOf(EnrichTask(list[i], all, terminal).fields), trigger,
                  FanOut(list[..i], all, terminal, trigger, snaps))
  {
    assert list[..i + 1][..i] == list[..i];
  }

  /** `fan_out_task_dependents` */
  method FanOutTaskDependents(sc: Schema, c: Cache, trigger: string, state: BridgeState)
    returns (events: seq<WatchEvent>)
    modifies state`taskSnapshots
    ensures events == FanOutTasks(sc, c, trigger, old(state.taskSnapshots)).events
    ensures state.taskSnapshots == FanOutTasks(sc, c, trigger, old(state.taskSnapshots)).snaps
  {
    var allTasks := ListTasks(sc, c);
    var terminal := TerminalColumn(c);
    events := [];
    for i := 0 to |allTasks|
      invariant FanOutResult(state.taskSnapshots, events) ==
                FanOut(allTasks[..i], allTasks, terminal, trigger, old(state.taskSnapshots))
    {
      FanOutNext(allTasks, i, allTasks, terminal, trigger, old(state.taskSnapshots));
      var id := allTasks[i].id;
      var entity := EnrichTask(allTasks[i], allTasks, terminal);
      var newSnapshot := FromEntity(entity);
      var changes := SnapshotDiff(Baseline(state.taskSnapshots, id), newSnapshot);
      state.taskSnapshots := state.taskSnapshots[id := newSnapshot];
      if id == trigger || changes == [] {
        continue;
      }
      events := events + [EntityFieldChanged("task", id, changes)];
    }
    assert allTasks[..|allTasks|] == allTasks;
  }

  /** `append_computed_changes` */
  method AppendComputedChanges(sc: Schema, kind: string, e: Entity, changes: seq<FieldChange>)
    returns (extended: seq<FieldChange>)
    ensures extended == AppendComputed(ComputedNames(sc, kind), FieldNames(changes), e.fields, changes)
  {
    var existing := FieldNames(changes);
    var names := sc.computed(kind);
    for i := 0 to |TASK_COMPUTED_FIELDS|
      invariant kind == "task" ==>
                  WithExtras(names, TASK_COMPUTED_FIELDS[i..]) == WithExtras(sc.computed(kind), TASK_COMPUTED_FIELDS)
      invariant kind != "task" ==> names == sc.computed(kind)
    {
      var extra := TASK_COMPUTED_FIELDS[i];
      if kind == "task" && extra !in names {
        names := names + [extra];
      }
    }
    names := StableSort(names, LessEq);
    extended := changes;
    for i := 0 to |names|
      invariant extended == AppendComputed(names[..i], existing, e.fields, changes)
    {
      assert names[..i + 1][..i] == names[..i];
      var name := names[i];
      if name in existing {
        continue;
      }
      if name in e.fields {
        if e.fields[name] == Null {
          continue;
        }
        extended := extended + [FieldChange(name, e.fields[name])];
      }
    }
    assert names[..|names|] == names;
  }

  /** `raw_changed_event` */
  method RawChangedEvent(kind: string, id: string, changes: seq<FieldChange>, state: BridgeState)
    returns (evt: WatchEvent)
    modifies state`seen
    ensures Resolved(state.View(), [evt]) == RawChanged(old(state.View()), kind, id, changes)
  {
    var key := Key(kind, id);
    var isNew := key !in state.seen;
    state.seen := state.seen + {key};
    if isNew {
      evt := EntityCreated(kind, id, Patch(map[], changes));
    } else {
      evt := EntityFieldChanged(kind, id, changes);
    }
  }

  /** `apply_task_fanout` */
  method ApplyFanout(sc: Schema, c: Cache, state: BridgeState, id: string, enriched: Option<Entity>,
                     primary: WatchEvent) returns (out: seq<WatchEvent>)
    modifies state`taskSnapshots
    ensures Resolved(state.View(), out) == ApplyTaskFanout(sc, c, old(state.View()), id, enriched, primary)
  {
    out := [primary];
    if TouchesGraph(primary) {
      var synthetic := FanOutTaskDependents(sc, c, id, state);
      out := out + synthetic;
    } else if enriched.Some? {
      var snapshot := FromEntity(enriched.value);
      state.taskSnapshots := state.taskSnapshots[id := snapshot];
    }
  }

  /** `resolve_entity_changed` */
  method ResolveEntityChanged(sc: Schema, c: Cache, available: bool, state: BridgeState,
                              kind: string, id: string, changes: seq<FieldChange>) returns (out: seq<WatchEvent>)
    modifies state
    ensures Resolved(state.View(), out) == ResolveChanged(sc, c, available, old(state.View()), kind, id, changes)
  {
    if !available {
      var raw := RawChangedEvent(kind, id, changes, state);
      return [raw];
    }
    var enriched := ReadEnriched(sc, c, kind, id);
    var key := Key(kind, id);
    var isNew := key !in state.seen;
    state.seen := state.seen + {key};
    var primary: WatchEvent;
    if isNew {
      primary := BuildCreated(kind, id, enriched, changes);
    } else {
      var extended := changes;
      if enriched.Some? {
        extended := AppendComputedChanges(sc, kind, enriched.value, changes);
      }
      primary := EntityFieldChanged(kind, id, extended);
    }
    out := [primary];
    if kind == "task" {
      out := ApplyFanout(sc, c, state, id, enriched, primary);
    }
  }

  /** `resolve_entity_deleted` */
  method ResolveEntityDeleted(sc: Schema, c: Cache, available: bool, state: BridgeState,
                              kind: string, id: string) returns (out: seq<WatchEvent>)
    modifies state
    ensures Resolved(state.View(), out) == ResolveDeleted(sc, c, available, old(state.View()), kind, id)
  {
    state.seen := state.seen - {Key(kind, id)};
    out := [EntityRemoved(kind, id)];
    if kind == "task" {
      state.taskSnapshots := state.taskSnapshots - {id};
      if available {
        var synthetic := FanOutTaskDependents(sc, c, id, state);
        out := out + synthetic;
      }
    }
  }

  /** `resolve_event` */
  method ResolveEvent(sc: Schema, c: Cache, available: bool, state: BridgeState, evt: EntityEvent)
    returns (out: seq<WatchEvent>)
    modifies state
    ensures Resolved(state.View(), out) == Resolve(sc, c, available, old(state.View()), evt)
  {
    match evt {
      case EntityChanged(kind, id, changes) =>
        out := ResolveEntityChanged(sc, c, available, state, kind, id, changes);
      case EntityDeleted(kind, id) =>
        out := ResolveEntityDeleted(sc, c, available, state, kind, id);
      case AttachmentTouched(kind, filename, removed) =>
        out := [AttachmentChanged(kind, filename, removed)];
    }
  }
}
