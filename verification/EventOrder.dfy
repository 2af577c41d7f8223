/** The order of what one resolved event sends: the synthetic events follow the
    task list, and appended computed values follow the raw changes by name. */
module EventOrder {
  import opened Json
  import opened EntityCache
  import opened TaskGraph
  import opened Sorting
  import opened Watcher
  import opened Replica
  import opened EventQueue
  import opened Delivery
  import opened FanOutEvents

  // ---- synthetic events ----------------------------------------------------------------

  /** The change of a listed task against what was last sent of it. */
  function Drift(all: seq<Entity>, terminal: string, snaps: map<string, Fields>): Entity -> seq<FieldChange> {
    (e: Entity) => DiffTo(Baseline(snaps, e.id), FiveOf(e, all, terminal), TASK_COMPUTED_FIELDS)
  }

  /** The synthetic events of a fan-out: one for each listed task but the trigger
      that drifted, in the order of the list. */
  function Synthetic(list: seq<Entity>, all: seq<Entity>, terminal: string, trigger: string,
                     snaps: map<string, Fields>): seq<WatchEvent> {
    MapSeq(Filter(list, (e: Entity) => e.id != trigger && Drift(all, terminal, snaps)(e) != []),
           (e: Entity) => EntityFieldChanged("task", e.id, Drift(all, terminal, snaps)(e)))
  }

  lemma SyntheticLast(list: seq<Entity>, all: seq<Entity>, terminal: string, trigger: string, snaps: map<string, Fields>)
    requires list != []
    ensures var e := list[|list| - 1];
            Synthetic(list, all, terminal, trigger, snaps) ==
            Synthetic(list[..|list| - 1], all, terminal, trigger, snaps) +
            if e.id == trigger || Drift(all, terminal, snaps)(e) == [] then []
            else [EntityFieldChanged("task", e.id, Drift(all, terminal, snaps)(e))]
  {
    FilterLast(list, (e: Entity) => e.id != trigger && Drift(all, terminal, snaps)(e) != []);
  }

  lemma {:induction false} FanOutInOrder(list: seq<Entity>, all: seq<Entity>, terminal: string, trigger: string,
                                         snaps: map<string, Fields>)
    requires UniqueIds(list)
    ensures FanOut(list, all, terminal, trigger, snaps).events == Synthetic(list, all, terminal, trigger, snaps)
  {
    if list != [] {
      var n := |list| - 1;
      FanOutInOrder(list[..n], all, terminal, trigger, snaps);
      FanOutReplay(list[..n], all, terminal, trigger, snaps, map[]);
      LastIsNew(list);
      FivesListed(list[..n], all, terminal, list[n].id);
      VisitEvents(list[n], all, terminal, trigger, snaps, FanOut(list[..n], all, terminal, trigger, snaps),
                  Fives(list[..n], all, terminal));
      SyntheticLast(list, all, terminal, trigger, snaps);
    }
  }

  /** After the primary event come the drifted tasks in the order of the task list,
      or nothing when the event does not fan out. */
  lemma SyntheticInOrder(sc: Schema, c: Cache, b: Bridge, e: EntityEvent)
    requires WellFormed(sc) && UniqueIds(ListTasks(sc, c))
    ensures Resolve(sc, c, true, b, e).out[1..] ==
            if FansOut(e, b.seen)
            then Synthetic(ListTasks(sc, c), ListTasks(sc, c), TerminalColumn(c), e.id, FanOutBase(b.snaps, e))
            else []
  {
    ResolveShape(sc, c, b, e);
    if FansOut(e, b.seen) {
      FanOutInOrder(ListTasks(sc, c), ListTasks(sc, c), TerminalColumn(c), e.id, FanOutBase(b.snaps, e));
    }
  }

  // ---- appended computed values ----------------------------------------------------------

  /** The names appended to a change list: the computed ones that it does not name
      and that have a value. */
  function Appended(names: seq<string>, existing: set<string>, f: Fields): seq<string> {
    Filter(names, n => n !in existing && At(f, n) != Null)
  }

  lemma {:induction false} AppendComputedIs(names: seq<string>, existing: set<string>, f: Fields, changes: seq<FieldChange>)
    ensures AppendComputed(names, existing, f, changes) ==
            changes + MapSeq(Appended(names, existing, f), n => FieldChange(n, At(f, n)))
  {
    if names != [] {
      AppendComputedIs(names[..|names| - 1], existing, f, changes);
      FilterLast(names, n => n !in existing && At(f, n) != Null);
    }
  }

  lemma {:induction false} FilterSorted<T(!new)>(s: seq<T>, p: T -> bool, leq: (T, T) -> bool)
    requires Sorted(s, leq)
    ensures Sorted(Filter(s, p), leq)
  {
    if s != [] {
      forall i, j | 0 <= i < j < |s[1..]| ensures leq(s[1..][i], s[1..][j]) { assert leq(s[i + 1], s[j + 1]); }
      FilterSorted(s[1..], p, leq);
      forall j | 0 <= j < |Filter(s[1..], p)| ensures leq(s[0], Filter(s[1..], p)[j]) {
        FilterMembers(s[1..], p, Filter(s[1..], p)[j]);
        var m :| 0 <= m < |s[1..]| && s[1..][m] == Filter(s[1..], p)[j];
        assert leq(s[0], s[m + 1]);
      }
    }
  }

  /** A field-changed event carries the raw changes as they came, and after them the
      computed values sorted by name. */
  lemma AppendedInOrder(sc: Schema, kind: string, id: string, e: Entity, changes: seq<FieldChange>)
    ensures var out := BuildFieldChanged(sc, kind, id, Some(e), changes).changes;
            && changes <= out
            && (forall i, j :: |changes| <= i < j < |out| ==> LessEq(out[i].field, out[j].field))
            && (forall i :: |changes| <= i < |out| ==> out[i].value == At(e.fields, out[i].field) && out[i].value != Null)
  {
    var names := ComputedNames(sc, kind);
    var appended := Appended(names, FieldNames(changes), e.fields);
    AppendComputedIs(names, FieldNames(changes), e.fields, changes);
    LessEqOrdering();
    SortSorted(if kind == "task" then WithExtras(sc.computed(kind), TASK_COMPUTED_FIELDS) else sc.computed(kind), LessEq);
    FilterSorted(names, n => n !in FieldNames(changes) && At(e.fields, n) != Null, LessEq);
    var out := BuildFieldChanged(sc, kind, id, Some(e), changes).changes;
    forall i | |changes| <= i < |out|
      ensures out[i] == FieldChange(appended[i - |changes|], At(e.fields, appended[i - |changes|]))
      ensures At(e.fields, out[i].field) != Null
    {
      FilterMembers(names, n => n !in FieldNames(changes) && At(e.fields, n) != Null, appended[i - |changes|]);
    }
  }

  lemma LessEqOrdering()
    ensures Ordering(LessEq)
  {
    forall x, y ensures LessEq(x, y) || LessEq(y, x) { LessEqTotal(x, y); }
    forall x, y, z | LessEq(x, y) && LessEq(y, z) ensures LessEq(x, z) { LessEqTransitive(x, y, z); }
  }
}
