/** The bridge's own step keeps the pipeline's invariant: what the primary event
    does to the replica's copy of one entity, and what the fan-out does to the
    others. */
module Delivery {
  import opened Json
  import opened EntityCache
  import opened TaskGraph
  import opened Sorting
  import opened Watcher
  import opened Replica
  import opened EventQueue
  import opened TaskLists
  import opened Convergence

  // ---- the primary event -------------------------------------------------------

  lemma {:induction false} WithExtrasMembers(names: seq<string>, extras: seq<string>, n: string)
    ensures n in WithExtras(names, extras) <==> n in names || n in extras
    decreases |extras|
  {
    if extras != [] {
      WithExtrasMembers(if extras[0] in names then names else names + [extras[0]], extras[1..], n);
    }
  }

  lemma ComputedNamesMembers(sc: Schema, kind: string, n: string)
    ensures n in ComputedNames(sc, kind) <==> n in sc.computed(kind) || (kind == "task" && IsFive(n))
  {
    var names := if kind == "task" then WithExtras(sc.computed(kind), TASK_COMPUTED_FIELDS) else sc.computed(kind);
    SortMultiset(names, LessEq);
    SameElements(StableSort(names, LessEq), names, n);
    WithExtrasMembers(sc.computed(kind), TASK_COMPUTED_FIELDS, n);
  }

  /** Appending computed values adds exactly the missing, non-null ones. */
  lemma {:induction false} AppendComputedAt(names: seq<string>, existing: set<string>, f: Fields,
                                            changes: seq<FieldChange>, n: string, v: Value)
    ensures var out := AppendComputed(names, existing, f, changes);
            var added := n in names && n !in existing && n in f && f[n] != Null;
            && Assigned(out, n, v) == (if added then f[n] else Assigned(changes, n, v))
            && (NamesField(out, n) <==> added || NamesField(changes, n))
  {
    if names != [] {
      var m := |names| - 1;
      AppendComputedAt(names[..m], existing, f, changes, n, v);
      var init := AppendComputed(names[..m], existing, f, changes);
      var last := names[m];
      var tail := if last !in existing && last in f && f[last] != Null then [FieldChange(last, f[last])] else [];
      assert names == names[..m] + [last];
      AssignedConcat(init, tail, n, v);
      NamesConcat(init, tail, n);
      if tail != [] {
        assert tail[0].field == last && tail[..0] == [];
      }
    }
  }

  lemma FieldNamesMember(changes: seq<FieldChange>, n: string)
    ensures n in FieldNames(changes) <==> NamesField(changes, n)
  {
  }

  /** What a live entity reads as, enriched. */
  lemma EnrichedFields(sc: Schema, c: Cache, k: Key)
    requires WellFormed(sc) && Has(c, k) && RawOnly(sc, k.kind, FieldsIn(c, k))
    ensures var enriched := ReadEnriched(sc, c, k.kind, k.id);
            && enriched.Some?
            && (forall f :: Plain(sc, k.kind, f) ==> At(enriched.value.fields, f) == At(FieldsIn(c, k), f))
            && (forall n :: OwnName(sc, k.kind, n) && OwnValue(sc, c, Around(sc, c), k, n) != Null ==>
                              At(enriched.value.fields, n) == OwnValue(sc, c, Around(sc, c), k, n))
  {
    FindKey(c, k);
    var e, v := Find(c, k).value, Around(sc, c);
    assert sc.derive(e.kind, e.fields, v).Keys <= sc.derived(e.kind) + sc.rewritten(e.kind);
    if k.kind == "task" {
      FiveKeys(ApplyCompute(sc, e, v), ListTasks(sc, c), TerminalColumn(c));
    }
  }

  lemma EnrichedTask(sc: Schema, c: Cache, k: Key)
    requires Has(c, k) && k.kind == "task"
    ensures var fields := ReadEnriched(sc, c, k.kind, k.id).value.fields;
            && SnapshotOf(fields) == FiveIn(sc, c, k)
            && SnapshotFull(FiveIn(sc, c, k))
            && forall n :: IsFive(n) ==> n in fields && fields[n] == FiveIn(sc, c, k)[n] && fields[n] != Null
  {
    var x := ApplyCompute(sc, Find(c, k).value, Around(sc, c));
    FiveKeys(x, ListTasks(sc, c), TerminalColumn(c));
    SnapshotIsFive(x, ListTasks(sc, c), TerminalColumn(c));
  }

  /** One field of the replica's copy after a field-change event. */
  lemma FieldChangedAt(sc: Schema, kind: string, id: string, e: Entity, changes: seq<FieldChange>, s: Store, n: string)
    ensures var s1 := ApplyEvent(s, BuildFieldChanged(sc, kind, id, Some(e), changes));
            At(FieldsOf(s1, Key(kind, id)), n) ==
            if n in ComputedNames(sc, kind) && !NamesField(changes, n) && At(e.fields, n) != Null then e.fields[n]
            else Assigned(changes, n, At(FieldsOf(s, Key(kind, id)), n))
  {
    var out := AppendComputed(ComputedNames(sc, kind), FieldNames(changes), e.fields, changes);
    var v := At(FieldsOf(s, Key(kind, id)), n);
    AppendComputedAt(ComputedNames(sc, kind), FieldNames(changes), e.fields, changes, n, v);
    FieldNamesMember(changes, n);
    PatchAt(FieldsOf(s, Key(kind, id)), out, n);
  }

  /** The value a stored field takes from the primary event of a live entity. */
  function PrimaryValue(sc: Schema, c: Cache, s: Store, seen: set<Key>, k: Key, changes: seq<FieldChange>, f: string): Value {
    if k !in seen then At(FieldsIn(c, k), f) else Assigned(changes, f, At(FieldsOf(s, k), f))
  }

  /** `e` is what a read of `k` finds. */
  ghost predicate ReadsAs(sc: Schema, c: Cache, k: Key, e: Entity) {
    && (forall f :: Plain(sc, k.kind, f) ==> At(e.fields, f) == At(FieldsIn(c, k), f))
    && (forall n :: OwnName(sc, k.kind, n) && OwnValue(sc, c, Around(sc, c), k, n) != Null ==>
                      At(e.fields, n) == OwnValue(sc, c, Around(sc, c), k, n))
    && (k.kind == "task" ==> forall n :: IsFive(n) ==> At(e.fields, n) == At(FiveIn(sc, c, k), n) && At(e.fields, n) != Null)
  }

  lemma EnrichedReads(sc: Schema, c: Cache, k: Key)
    requires WellFormed(sc) && Has(c, k) && RawOnly(sc, k.kind, FieldsIn(c, k))
    ensures ReadEnriched(sc, c, k.kind, k.id).Some? && ReadsAs(sc, c, k, ReadEnriched(sc, c, k.kind, k.id).value)
  {
    EnrichedFields(sc, c, k);
    if k.kind == "task" { EnrichedTask(sc, c, k); }
  }

  /** The replica's copy of `k` holds what a read finds and the stored values
      that the primary event carried. */
  ghost predicate PrimaryTook(sc: Schema, c: Cache, b: Bridge, s: Store, s1: Store, k: Key, changes: seq<FieldChange>) {
    && (k.kind == "task" ==> FiveHeld(sc, c, s1, Around(sc, c), k))
    && OwnHeld(sc, c, s1, Around(sc, c), k)
    && forall f :: Plain(sc, k.kind, f) ==> At(FieldsOf(s1, k), f) == PrimaryValue(sc, c, s, b.seen, k, changes, f)
  }

  lemma CreatedTook(sc: Schema, c: Cache, b: Bridge, s: Store, s1: Store, k: Key, changes: seq<FieldChange>, e: Entity)
    requires ReadsAs(sc, c, k, e) && k !in b.seen && FieldsOf(s1, k) == NonNull(e.fields)
    ensures PrimaryTook(sc, c, b, s, s1, k, changes)
  {
    assert forall f :: At(NonNull(e.fields), f) == At(e.fields, f);
    assert FiveIn(sc, c, k) == FiveUnder(sc, c, Around(sc, c), k);
  }

  lemma ChangedTook(sc: Schema, c: Cache, b: Bridge, s: Store, s1: Store, k: Key, changes: seq<FieldChange>, e: Entity)
    requires ReadsAs(sc, c, k, e) && k in b.seen && forall n :: ChangedHeld(sc, e, changes, s, s1, k, n)
    ensures PrimaryTook(sc, c, b, s, s1, k, changes)
  {
    assert FiveIn(sc, c, k) == FiveUnder(sc, c, Around(sc, c), k);
    forall n
      ensures IsFive(n) && k.kind == "task" ==> At(FieldsOf(s1, k), n) == At(FiveIn(sc, c, k), n)
      ensures OwnName(sc, k.kind, n) && OwnValue(sc, c, Around(sc, c), k, n) != Null ==>
                At(FieldsOf(s1, k), n) == OwnValue(sc, c, Around(sc, c), k, n)
      ensures Plain(sc, k.kind, n) ==> At(FieldsOf(s1, k), n) == PrimaryValue(sc, c, s, b.seen, k, changes, n)
    {
      assert ChangedHeld(sc, e, changes, s, s1, k, n);
    }
  }

  lemma PrimaryHeld(sc: Schema, c: Cache, b: Bridge, s: Store, k: Key, changes: seq<FieldChange>)
    requires WellFormed(sc) && Has(c, k) && RawOnly(sc, k.kind, FieldsIn(c, k))
    requires EventRaw(sc, EntityChanged(k.kind, k.id, changes))
    ensures PrimaryTook(sc, c, b, s, ApplyEvent(s, PrimaryOf(sc, c, b, k.kind, k.id, changes)), k, changes)
  {
    EnrichedReads(sc, c, k);
    var e := ReadEnriched(sc, c, k.kind, k.id).value;
    var s1 := ApplyEvent(s, PrimaryOf(sc, c, b, k.kind, k.id, changes));
    if k in b.seen {
      forall n ensures ChangedHeld(sc, e, changes, s, s1, k, n) { PrimaryChanged(sc, e, changes, s, k, n); }
      ChangedTook(sc, c, b, s, s1, k, changes, e);
    } else {
      CreatedTook(sc, c, b, s, s1, k, changes, e);
    }
  }

  /** One field after a field-change event of the entity that reads as `e`. */
  ghost predicate ChangedHeld(sc: Schema, e: Entity, changes: seq<FieldChange>, s: Store, s1: Store, k: Key, n: string) {
    && (IsFive(n) && k.kind == "task" && At(e.fields, n) != Null ==> At(FieldsOf(s1, k), n) == e.fields[n])
    && (OwnName(sc, k.kind, n) && At(e.fields, n) != Null ==> At(FieldsOf(s1, k), n) == e.fields[n])
    && (Plain(sc, k.kind, n) ==> At(FieldsOf(s1, k), n) == Assigned(changes, n, At(FieldsOf(s, k), n)))
  }

  lemma PrimaryChanged(sc: Schema, e: Entity, changes: seq<FieldChange>, s: Store, k: Key, n: string)
    requires WellFormed(sc) && EventRaw(sc, EntityChanged(k.kind, k.id, changes))
    ensures ChangedHeld(sc, e, changes, s, ApplyEvent(s, BuildFieldChanged(sc, k.kind, k.id, Some(e), changes)), k, n)
  {
    FieldChangedAt(sc, k.kind, k.id, e, changes, s, n);
    ComputedNamesMembers(sc, k.kind, n);
    assert n in sc.computed(k.kind) ==> n in sc.derived(k.kind);
    assert IsFive(n) && k.kind == "task" ==> n in sc.derived(k.kind);
  }

  lemma PrimaryElsewhere(sc: Schema, c: Cache, b: Bridge, s: Store, kind: string, id: string,
                         changes: seq<FieldChange>, k: Key)
    requires k != Key(kind, id)
    ensures var s1 := ApplyEvent(s, PrimaryOf(sc, c, b, kind, id, changes));
            (k in s1 <==> k in s) && FieldsOf(s1, k) == FieldsOf(s, k)
  {
  }

  /** The fan-out test on the primary event is the one read off the raw event. */
  lemma TouchesGraphPrimary(sc: Schema, c: Cache, b: Bridge, id: string, changes: seq<FieldChange>)
    requires WellFormed(sc)
    ensures TouchesGraph(PrimaryOf(sc, c, b, "task", id, changes)) <==>
            FansOut(EntityChanged("task", id, changes), b.seen)
  {
    if Key("task", id) in b.seen {
      var enriched := ReadEnriched(sc, c, "task", id);
      if enriched.Some? {
        var names, out := ComputedNames(sc, "task"),
          AppendComputed(ComputedNames(sc, "task"), FieldNames(changes), enriched.value.fields, changes);
        forall n | n in TASK_FANOUT_TRIGGER_FIELDS ensures NamesField(out, n) <==> NamesField(changes, n) {
          AppendComputedAt(names, FieldNames(changes), enriched.value.fields, changes, n, Null);
          ComputedNamesMembers(sc, "task", n);
          assert n in sc.computed("task") ==> n in sc.derived("task");
        }
        TouchesByName(out);
        TouchesByName(changes);
      }
    }
  }

  lemma TouchesByName(changes: seq<FieldChange>)
    ensures TouchesFanoutField(changes) <==> exists n :: n in TASK_FANOUT_TRIGGER_FIELDS && NamesField(changes, n)
  {
    if TouchesFanoutField(changes) {
      var i :| 0 <= i < |changes| && changes[i].field in TASK_FANOUT_TRIGGER_FIELDS;
      assert NamesField(changes, changes[i].field);
    }
  }

  // ---- the fan-out ------------------------------------------------------------------

  lemma FanOutCache(sc: Schema, c: Cache, trigger: string, snaps: map<string, Fields>, s: Store)
    requires Unique(c)
    ensures var list := ListTasks(sc, c);
            var fives := Fives(list, list, TerminalColumn(c));
            var r := FanOutTasks(sc, c, trigger, snaps);
            && r.snaps == snaps + fives
            && FanOutStore(fives, trigger, snaps, s, Replay(s, r.events))
  {
    ListTasksUnique(sc, c, Around(sc, c));
    FanOutReplay(ListTasks(sc, c), ListTasks(sc, c), TerminalColumn(c), trigger, snaps, s);
  }

  /** After a fan-out every live task's snapshot is fresh, and so is the
      replica's copy, given a truthful baseline; the trigger is left alone. */
  lemma FanOutTask(sc: Schema, c: Cache, trigger: string, snaps: map<string, Fields>, s: Store, k: Key)
    requires Unique(c) && k.kind == "task" && Has(c, k)
    ensures var r := FanOutTasks(sc, c, trigger, snaps);
            && k.id in r.snaps && r.snaps[k.id] == FiveIn(sc, c, k) && SnapshotFull(FiveIn(sc, c, k))
            && (k.id == trigger ==> FieldsOf(Replay(s, r.events), k) == FieldsOf(s, k))
            && (k.id != trigger && (k.id in snaps ==> SnapshotHeld(snaps[k.id], FieldsOf(s, k))) ==>
                  FiveHeld(sc, c, Replay(s, r.events), Around(sc, c), k))
  {
    var r := FanOutTasks(sc, c, trigger, snaps);
    var s' := Replay(s, r.events);
    FanOutCache(sc, c, trigger, snaps, s);
    FivesOfCache(sc, c, k.id);
    assert k == TaskKey(k.id);
    EnrichedTask(sc, c, k);
    if k.id != trigger && (k.id in snaps ==> SnapshotHeld(snaps[k.id], FieldsOf(s, k))) {
      forall n | IsFive(n) ensures At(FieldsOf(s', k), n) == At(FiveIn(sc, c, k), n) {
        DiffSuffices(FieldsOf(s, k), Baseline(snaps, k.id), FiveIn(sc, c, k), n);
      }
    }
  }

  /** A fan-out touches no stored field, invents no entity and drops none. */
  lemma FanOutRaw(sc: Schema, c: Cache, trigger: string, snaps: map<string, Fields>, s: Store, k: Key)
    requires WellFormed(sc) && Unique(c)
    ensures var r := FanOutTasks(sc, c, trigger, snaps);
            var s' := Replay(s, r.events);
            && (forall f :: !(k.kind == "task" && IsFive(f)) ==> At(FieldsOf(s', k), f) == At(FieldsOf(s, k), f))
            && (k in s' ==> k in s || Has(c, k))
            && (k.kind != "task" || !Has(c, k) || k.id == trigger ==> (k in s' <==> k in s))
            && (!(k.kind == "task" && Has(c, k)) ==> (k.id in r.snaps && k.kind == "task" ==> k.id in snaps && r.snaps[k.id] == snaps[k.id]))
            && (!Has(c, k) ==> FieldsOf(s', k) == FieldsOf(s, k))
  {
    FanOutCache(sc, c, trigger, snaps, s);
    FivesOfCache(sc, c, k.id);
    assert k.kind == "task" ==> k == TaskKey(k.id);
    var s' := Replay(s, FanOutTasks(sc, c, trigger, snaps).events);
    if k.kind == "task" && Has(c, k) && k.id != trigger {
      EnrichedTask(sc, c, k);
      forall f ensures !IsFive(f) ==> At(FieldsOf(s', k), f) == At(FieldsOf(s, k), f) {
        var changes := DiffTo(Baseline(snaps, k.id), FiveIn(sc, c, k), TASK_COMPUTED_FIELDS);
        PatchAt(FieldsOf(s, k), changes, f);
        DiffToFields(Baseline(snaps, k.id), FiveIn(sc, c, k), TASK_COMPUTED_FIELDS, f, At(FieldsOf(s, k), f));
      }
    }
  }

  // ---- the bridge's step ---------------------------------------------------------------

  /** The primary event a cache event resolves to. */
  function HeadOf(sc: Schema, c: Cache, b: Bridge, e: EntityEvent): WatchEvent {
    match e
    case EntityChanged(kind, id, changes) => PrimaryOf(sc, c, b, kind, id, changes)
    case EntityDeleted(kind, id) => EntityRemoved(kind, id)
    case AttachmentTouched(kind, filename, removed) => AttachmentChanged(kind, filename, removed)
  }

  /** The replica right after the primary event of the head of the queue. */
  function AfterPrimary(sc: Schema, s: System): Store
    requires s.queue != []
  {
    ApplyEvent(s.store, HeadOf(sc, s.cache, s.bridge, s.queue[0]))
  }

  /** The snapshots an event's fan-out starts from. */
  function FanOutBase(snaps: map<string, Fields>, e: EntityEvent): map<string, Fields> {
    if e.EntityDeleted? then snaps - {e.id} else snaps
  }

  /** The snapshots after an event that does not fan out. */
  function QuietSnaps(sc: Schema, c: Cache, snaps: map<string, Fields>, e: EntityEvent): map<string, Fields> {
    if e.EntityChanged? && e.kind == "task" && Has(c, TaskKey(e.id)) then snaps[e.id := FiveIn(sc, c, TaskKey(e.id))]
    else snaps
  }

  ghost predicate ShapeOf(sc: Schema, c: Cache, b: Bridge, e: EntityEvent, r: Resolved) {
    && r.out != [] && r.out[0] == HeadOf(sc, c, b, e)
    && r.bridge.seen == SeenAfter(b.seen, e)
    && (FansOut(e, b.seen) ==>
          var f := FanOutTasks(sc, c, e.id, FanOutBase(b.snaps, e));
          r.bridge.snaps == f.snaps && r.out[1..] == f.events)
    && (!FansOut(e, b.seen) ==> r.out[1..] == [] && r.bridge.snaps == QuietSnaps(sc, c, b.snaps, e))
  }

  lemma TaskChangeShape(sc: Schema, c: Cache, b: Bridge, id: string, changes: seq<FieldChange>)
    requires WellFormed(sc)
    ensures ShapeOf(sc, c, b, EntityChanged("task", id, changes), ResolveChanged(sc, c, true, b, "task", id, changes))
  {
    TouchesGraphPrimary(sc, c, b, id, changes);
    if Has(c, TaskKey(id)) { EnrichedTask(sc, c, TaskKey(id)); }
    var primary := PrimaryOf(sc, c, b, "task", id, changes);
    var f := FanOutTasks(sc, c, id, b.snaps);
    assert ([primary] + f.events)[1..] == f.events;
  }

  lemma TaskDeleteShape(sc: Schema, c: Cache, b: Bridge, id: string)
    ensures ShapeOf(sc, c, b, EntityDeleted("task", id), ResolveDeleted(sc, c, true, b, "task", id))
  {
    var f := FanOutTasks(sc, c, id, b.snaps - {id});
    assert ([EntityRemoved("task", id)] + f.events)[1..] == f.events;
  }

  /** A resolved event is its primary event, followed by a fan-out exactly when
      `FansOut` says so. */
  lemma ResolveShape(sc: Schema, c: Cache, b: Bridge, e: EntityEvent)
    requires WellFormed(sc)
    ensures ShapeOf(sc, c, b, e, Resolve(sc, c, true, b, e))
  {
    match e {
      case EntityChanged(kind, id, changes) => if kind == "task" { TaskChangeShape(sc, c, b, id, changes); }
      case EntityDeleted(kind, id) => if kind == "task" { TaskDeleteShape(sc, c, b, id); }
      case AttachmentTouched(_, _, _) =>
    }
  }

  /** What delivering the head makes of the system, read as of now. */
  ghost predicate Delivered(sc: Schema, s: System, s': System)
    requires s.queue != []
  {
    var e, v := s.queue[0], Around(sc, s.cache);
    && s'.cache == s.cache && s'.queue == s.queue[1..] && s'.bridge.seen == SeenAfter(s.bridge.seen, e)
    && (FansOut(e, s.bridge.seen) ==>
          var r := FanOutTasks(sc, s.cache, e.id, FanOutBase(s.bridge.snaps, e));
          s'.bridge.snaps == r.snaps && s'.store == Replay(AfterPrimary(sc, s), r.events))
    && (!FansOut(e, s.bridge.seen) ==>
          s'.store == AfterPrimary(sc, s) && s'.bridge.snaps == QuietSnaps(sc, s.cache, s.bridge.snaps, e))
    && (forall k :: s'.own(k) == if Concerns(e, k) then v else s.own(k))
    && (forall id :: s'.five(id) == if FansOut(e, s.bridge.seen) || Concerns(e, TaskKey(id)) then v else s.five(id))
  }

  lemma ShapeDelivered(sc: Schema, s: System, r: Resolved)
    requires s.queue != [] && ShapeOf(sc, s.cache, s.bridge, s.queue[0], r)
    ensures Delivered(sc, s, Advance(sc, s, r))
  {
    ReplaySplit(s.store, r.out);
  }

  /** What the head of the queue and one entity are known to satisfy. */
  ghost predicate Ready(sc: Schema, s: System, k: Key) {
    StoredReady(sc, s, k) && KeyOk(sc, s, k)
  }

  ghost predicate StoredReady(sc: Schema, s: System, k: Key) {
    s.queue != [] && Unique(s.cache) && EventRaw(sc, s.queue[0]) && StoredOk(sc, s, k)
  }

  /** Entities the head does not concern keep their replica copy. */
  lemma AfterPrimaryElsewhere(sc: Schema, s: System, k: Key)
    requires s.queue != [] && !Concerns(s.queue[0], k)
    ensures var s1 := AfterPrimary(sc, s);
            (k in s1 <==> k in s.store) && FieldsOf(s1, k) == FieldsOf(s.store, k)
  {
    var e := s.queue[0];
    if e.EntityChanged? {
      PrimaryElsewhere(sc, s.cache, s.bridge, s.store, e.kind, e.id, e.changes, k);
    }
  }

  /** What the whole step does to one entity's stored fields. */
  lemma DeliverRaw(sc: Schema, s: System, s': System, k: Key)
    requires WellFormed(sc) && Unique(s.cache) && s.queue != [] && Delivered(sc, s, s')
    ensures var s1 := AfterPrimary(sc, s);
            && (forall f :: !(k.kind == "task" && IsFive(f)) ==> At(FieldsOf(s'.store, k), f) == At(FieldsOf(s1, k), f))
            && (k in s'.store ==> k in s1 || Has(s.cache, k))
  {
    if FansOut(s.queue[0], s.bridge.seen) {
      FanOutRaw(sc, s.cache, s.queue[0].id, FanOutBase(s.bridge.snaps, s.queue[0]), AfterPrimary(sc, s), k);
    }
  }

  lemma DeliverSettles(sc: Schema, s: System, s': System, k: Key)
    requires WellFormed(sc) && StoredReady(sc, s, k) && Delivered(sc, s, s')
    ensures SettlesRight(sc, s', k)
  {
    var e := s.queue[0];
    DeliverRaw(sc, s, s', k);
    if !Concerns(e, k) {
      AfterPrimaryElsewhere(sc, s, k);
    } else if e.EntityChanged? && Has(s.cache, k) {
      PrimaryHeld(sc, s.cache, s.bridge, s.store, k, e.changes);
    }
    forall f | Plain(sc, k.kind, f)
      ensures Settled(s'.queue, k, f, At(FieldsOf(s'.store, k), f)) == At(FieldsIn(s.cache, k), f)
    {
      var v := At(FieldsOf(s.store, k), f);
      assert Settled(s.queue, k, f, v) == Settled(s'.queue, k, f, StepValue(e, k, f, v));
      assert !(k.kind == "task" && IsFive(f));
      if Concerns(e, k) && e.EntityChanged? {
        if !Has(s.cache, k) {
          SettledDead(s'.queue, k, f, At(FieldsOf(s'.store, k), f));
        } else if k !in s.bridge.seen {
          SettledFixpoint(s'.queue, k, f, StepValue(e, k, f, v));
        }
      }
    }
  }

  lemma DeliverLife(sc: Schema, s: System, s': System, k: Key)
    requires WellFormed(sc) && StoredReady(sc, s, k) && Delivered(sc, s, s')
    ensures LifeOk(s', k)
  {
    DeliverRaw(sc, s, s', k);
    if !Concerns(s.queue[0], k) { AfterPrimaryElsewhere(sc, s, k); }
  }

  lemma DeliverOwn(sc: Schema, s: System, s': System, k: Key)
    requires WellFormed(sc) && Ready(sc, s, k) && Delivered(sc, s, s')
    requires !Pending(s.queue[1..], k) && Has(s.cache, k)
    ensures OwnHeld(sc, s.cache, s'.store, s'.own(k), k)
  {
    var e := s.queue[0];
    DeliverRaw(sc, s, s', k);
    if Concerns(e, k) {
      PrimaryHeld(sc, s.cache, s.bridge, s.store, k, e.changes);
    } else {
      AfterPrimaryElsewhere(sc, s, k);
    }
  }

  /** The copy that holds fresh values agrees with a fresh snapshot. */
  lemma FreshSnapshotHeld(sc: Schema, c: Cache, s: Store, k: Key)
    requires FiveHeld(sc, c, s, Around(sc, c), k) && SnapshotFull(FiveIn(sc, c, k))
    ensures SnapshotHeld(FiveIn(sc, c, k), FieldsOf(s, k))
  {
  }

  /** The resolved task itself, when nothing more waits for it. */
  lemma DeliverOwnTask(sc: Schema, s: System, s': System, k: Key)
    requires WellFormed(sc) && Ready(sc, s, k) && Delivered(sc, s, s')
    requires k.kind == "task" && Has(s.cache, k) && Concerns(s.queue[0], k) && !Pending(s.queue[1..], k)
    ensures FiveHeld(sc, s.cache, s'.store, Around(sc, s.cache), k) && SnapshotFull(FiveIn(sc, s.cache, k))
    ensures k.id in s'.bridge.snaps && s'.bridge.snaps[k.id] == FiveIn(sc, s.cache, k)
  {
    var e, s1 := s.queue[0], AfterPrimary(sc, s);
    assert e.EntityChanged?;
    PrimaryHeld(sc, s.cache, s.bridge, s.store, k, e.changes);
    EnrichedTask(sc, s.cache, k);
    assert k == TaskKey(e.id);
    if FansOut(e, s.bridge.seen) {
      FanOutTask(sc, s.cache, e.id, FanOutBase(s.bridge.snaps, e), s1, k);
    }
  }

  /** Another live task, when nothing waits for it and the head fans out. */
  lemma DeliverVisitedTask(sc: Schema, s: System, s': System, k: Key)
    requires WellFormed(sc) && Ready(sc, s, k) && Delivered(sc, s, s') && FansOut(s.queue[0], s.bridge.seen)
    requires k.kind == "task" && Has(s.cache, k) && !Pending(s.queue, k)
    ensures FiveHeld(sc, s.cache, s'.store, Around(sc, s.cache), k) && SnapshotFull(FiveIn(sc, s.cache, k))
    ensures k.id in s'.bridge.snaps && s'.bridge.snaps[k.id] == FiveIn(sc, s.cache, k)
  {
    var e, s1 := s.queue[0], AfterPrimary(sc, s);
    AfterPrimaryElsewhere(sc, s, k);
    FanOutTask(sc, s.cache, e.id, FanOutBase(s.bridge.snaps, e), s1, k);
  }

  /** Another live task, when nothing waits for it and the head visits nobody. */
  lemma DeliverUnvisitedTask(sc: Schema, s: System, s': System, k: Key)
    requires WellFormed(sc) && Ready(sc, s, k) && Delivered(sc, s, s') && !FansOut(s.queue[0], s.bridge.seen)
    requires k.kind == "task" && Has(s.cache, k) && !Pending(s.queue, k)
    ensures SnapshotOk(s', k)
    ensures !WillFanOut(s.queue[1..], SeenAfter(s.bridge.seen, s.queue[0])) ==>
              FiveHeld(sc, s.cache, s'.store, s'.five(k.id), k)
  {
    AfterPrimaryElsewhere(sc, s, k);
  }

  /** A live task with nothing waiting: its snapshot is truthful, and its five
      fields are fresh unless a fan-out is still to come. */
  lemma DeliverLiveTask(sc: Schema, s: System, s': System, k: Key)
    requires WellFormed(sc) && Ready(sc, s, k) && Delivered(sc, s, s')
    requires k.kind == "task" && Has(s.cache, k) && !Pending(s.queue[1..], k)
    ensures SnapshotOk(s', k)
    ensures !WillFanOut(s.queue[1..], SeenAfter(s.bridge.seen, s.queue[0])) ==>
              FiveHeld(sc, s.cache, s'.store, s'.five(k.id), k)
  {
    if Concerns(s.queue[0], k) {
      DeliverOwnTask(sc, s, s', k);
      FreshSnapshotHeld(sc, s.cache, s'.store, k);
    } else if FansOut(s.queue[0], s.bridge.seen) {
      DeliverVisitedTask(sc, s, s', k);
      FreshSnapshotHeld(sc, s.cache, s'.store, k);
    } else {
      DeliverUnvisitedTask(sc, s, s', k);
    }
  }

  lemma DeliverOtherTask(sc: Schema, s: System, s': System, k: Key)
    requires WellFormed(sc) && Ready(sc, s, k) && Delivered(sc, s, s')
    requires k.kind == "task" && !(Has(s.cache, k) && !Pending(s.queue[1..], k))
    ensures SnapshotOk(s', k)
  {
    var e, s1 := s.queue[0], AfterPrimary(sc, s);
    if Has(s.cache, k) { EnrichedTask(sc, s.cache, k); }
    if !Concerns(e, k) { AfterPrimaryElsewhere(sc, s, k); }
    if FansOut(e, s.bridge.seen) {
      if Has(s.cache, k) {
        FanOutTask(sc, s.cache, e.id, FanOutBase(s.bridge.snaps, s.queue[0]), s1, k);
      } else {
        FanOutRaw(sc, s.cache, e.id, FanOutBase(s.bridge.snaps, s.queue[0]), s1, k);
      }
    }
  }

  lemma DeliverKeeps(sc: Schema, s: System, s': System, k: Key)
    requires WellFormed(sc) && Ready(sc, s, k) && Delivered(sc, s, s')
    ensures KeyOk(sc, s', k)
  {
    DeliverSettles(sc, s, s', k);
    DeliverLife(sc, s, s', k);
    if !Pending(s.queue[1..], k) && Has(s.cache, k) { DeliverOwn(sc, s, s', k); }
    if k.kind == "task" {
      if Has(s.cache, k) && !Pending(s.queue[1..], k) {
        DeliverLiveTask(sc, s, s', k);
      } else {
        DeliverOtherTask(sc, s, s', k);
      }
    }
  }

  // ---- every run ---------------------------------------------------------------------------

  lemma StepKeepsInv(sc: Schema, s: System, a: Action)
    requires WellFormed(sc) && Inv(sc, s) && Enabled(sc, s, a)
    ensures Inv(sc, Step(sc, s, a))
  {
    var s' := Step(sc, s, a);
    match a {
      case Put(e, changes) =>
        if s' != s {
          UniqueInsert(s.cache, e);
          PutKeepsQueueRaw(sc, s, e, changes);
          forall k ensures KeyOk(sc, s', k) { PutKeeps(sc, s, e, changes, k); }
        }
      case Remove(k0) =>
        UniqueDrop(s.cache, k0);
        forall k ensures KeyOk(sc, s', k) { RemoveKeeps(sc, s, k0, k); }
      case Attach(kind, filename, removed) =>
        forall k ensures KeyOk(sc, s', k) { AttachKeeps(sc, s, kind, filename, removed, k); }
      case Elsewhere(_) =>
        forall k ensures KeyOk(sc, s', k) { assert KeyOk(sc, s, k); }
      case Deliver =>
        DeliverKeepsInv(sc, s);
    }
  }

  lemma DeliveredNow(sc: Schema, s: System)
    requires WellFormed(sc) && s.queue != []
    ensures Delivered(Now(sc, s), s, Step(sc, s, Deliver)) && Step(sc, s, Deliver).outside == s.outside
  {
    var now := Now(sc, s);
    var r := Resolve(now, s.cache, true, s.bridge, s.queue[0]);
    ResolveShape(now, s.cache, s.bridge, s.queue[0]);
    ShapeDelivered(now, s, r);
    StepAdvances(sc, s);
  }

  lemma DeliverKeepsInv(sc: Schema, s: System)
    requires WellFormed(sc) && Inv(sc, s) && s.queue != []
    ensures Inv(sc, Step(sc, s, Deliver))
  {
    var now, s' := Now(sc, s), Step(sc, s, Deliver);
    InvAnytime(sc, s.outside, s);
    DeliveredNow(sc, s);
    forall k ensures KeyOk(now, s', k) {
      assert KeyOk(now, s, k);
      DeliverKeeps(now, s, s', k);
    }
    InvAnytime(sc, s.outside, s');
  }

  /** The invariant holds after every step of every run. */
  lemma {:induction false} RunKeepsInv(sc: Schema, s: System, run: seq<Action>)
    requires WellFormed(sc) && Inv(sc, s) && Legal(sc, s, run)
    ensures Inv(sc, After(sc, s, run))
    decreases |run|
  {
    if run != [] {
      StepKeepsInv(sc, s, run[0]);
      RunKeepsInv(sc, Step(sc, s, run[0]), run[1..]);
    }
  }

  /** In every reachable state the snapshot of a task with no event waiting is
      what the replica holds, and with an empty queue only live tasks have one. */
  lemma SnapshotsAreHeld(sc: Schema, s: System, run: seq<Action>, id: string)
    requires WellFormed(sc) && Initial(sc, s) && Legal(sc, s, run)
    ensures var t := After(sc, s, run);
            id in t.bridge.snaps && !Pending(t.queue, TaskKey(id)) ==>
              Has(t.cache, TaskKey(id)) && SnapshotFull(t.bridge.snaps[id]) &&
              SnapshotHeld(t.bridge.snaps[id], FieldsOf(t.store, TaskKey(id)))
  {
    InitialInv(sc, s);
    RunKeepsInv(sc, s, run);
    assert KeyOk(sc, After(sc, s, run), TaskKey(id));
  }
}
