/** The whole pipeline as a state machine: writers change the cache and queue
    events, the bridge resolves them later against the then-current cache, and
    the replica replays what comes out. The invariant says what the replica
    holds of every entity, in terms of what the bridge last read around it. */
module Convergence {
  import opened Json
  import opened EntityCache
  import opened TaskGraph
  import opened Watcher
  import opened Replica
  import opened EventQueue
  import opened TaskLists

  /** `outside` is what derivations may read outside the cache. The last two are
      bookkeeping of the model: the surroundings under which the bridge last
      resolved each entity's own event, and last read each task's five fields. */
  datatype System = System(
    cache: Cache,
    queue: seq<EntityEvent>,
    bridge: Bridge,
    store: Store,
    outside: nat,
    own: Key -> Surroundings,
    five: string -> Surroundings)

  /** A write or refresh, a delete, archive or eviction, an attachment change,
      a change outside the cache, and the bridge taking the next event. */
  datatype Action =
    | Put(e: Entity, changes: seq<FieldChange>)
    | Remove(key: Key)
    | Attach(kind: string, filename: string, removed: bool)
    | Elsewhere(outside: nat)
    | Deliver

  /** What the code relies on: stored fields name no derived field, and the
      cache's diff is a diff. */
  ghost predicate Enabled(sc: Schema, s: System, a: Action) {
    match a
    case Put(e, changes) =>
      && RawOnly(sc, e.kind, e.fields)
      && IsDiff(FieldsIn(s.cache, e.KeyOf()), e.fields, changes)
    case Remove(_) => true
    case Attach(_, _, _) => true
    case Elsewhere(_) => true
    case Deliver => s.queue != []
  }

  /** How reads derive fields at this moment. */
  function Now(sc: Schema, s: System): Schema { sc.(outside := s.outside) }

  function OwnAfter(own: Key -> Surroundings, e: EntityEvent, v: Surroundings): Key -> Surroundings {
    (k: Key) => if Concerns(e, k) then v else own(k)
  }

  function FiveAfter(five: string -> Surroundings, e: EntityEvent, seen: set<Key>, v: Surroundings): string -> Surroundings {
    (id: string) => if FansOut(e, seen) || Concerns(e, TaskKey(id)) then v else five(id)
  }

  /** The head of the queue is done: `r` is what it resolved to. */
  function Advance(sc: Schema, s: System, r: Resolved): System
    requires s.queue != []
  {
    var e, v := s.queue[0], Around(sc, s.cache);
    System(s.cache, s.queue[1..], r.bridge, Replay(s.store, r.out), s.outside,
           OwnAfter(s.own, e, v), FiveAfter(s.five, e, s.bridge.seen, v))
  }

  function Step(sc: Schema, s: System, a: Action): System
    requires a.Deliver? ==> s.queue != []
  {
    match a
    case Put(e, changes) =>
      if Has(s.cache, e.KeyOf()) && FieldsIn(s.cache, e.KeyOf()) == e.fields then s
      else s.(cache := Insert(s.cache, e), queue := s.queue + [EntityChanged(e.kind, e.id, changes)])
    case Remove(k) =>
      s.(cache := Drop(s.cache, k), queue := s.queue + [EntityDeleted(k.kind, k.id)])
    case Attach(kind, filename, removed) =>
      s.(queue := s.queue + [AttachmentTouched(kind, filename, removed)])
    case Elsewhere(outside) => s.(outside := outside)
    case Deliver =>
      Advance(Now(sc, s), s, Resolve(Now(sc, s), s.cache, true, s.bridge, s.queue[0]))
  }

  lemma StepAdvances(sc: Schema, s: System)
    requires s.queue != []
    ensures Step(sc, s, Deliver) == Advance(Now(sc, s), s, Resolve(Now(sc, s), s.cache, true, s.bridge, s.queue[0]))
    ensures Step(sc, s, Deliver).outside == s.outside
  {
  }

  ghost predicate Legal(sc: Schema, s: System, run: seq<Action>)
    decreases |run|
  {
    run == [] || (Enabled(sc, s, run[0]) && Legal(sc, Step(sc, s, run[0]), run[1..]))
  }

  ghost function After(sc: Schema, s: System, run: seq<Action>): System
    requires Legal(sc, s, run)
    decreases |run|
  {
    if run == [] then s else After(sc, Step(sc, s, run[0]), run[1..])
  }

  // ---- what the replica owes for one entity ---------------------------------------

  /** Every stored field that reads leave alone is the same in the replica and in
      the cache. */
  ghost predicate RawHeld(sc: Schema, c: Cache, s: Store, k: Key) {
    forall f :: Plain(sc, k.kind, f) ==> At(FieldsOf(s, k), f) == At(FieldsIn(c, k), f)
  }

  /** A registered computed field that is not one of the five. */
  ghost predicate OwnName(sc: Schema, kind: string, n: string) {
    n in sc.computed(kind) && !(kind == "task" && IsFive(n))
  }

  /** A derived field of `k` under given surroundings. */
  function OwnValue(sc: Schema, c: Cache, v: Surroundings, k: Key, n: string): Value {
    At(sc.derive(k.kind, FieldsIn(c, k), v), n)
  }

  /** Every registered computed field with a value reads as derived under `v`. */
  ghost predicate OwnHeld(sc: Schema, c: Cache, s: Store, v: Surroundings, k: Key) {
    forall n :: OwnName(sc, k.kind, n) && OwnValue(sc, c, v, k, n) != Null ==>
                  At(FieldsOf(s, k), n) == OwnValue(sc, c, v, k, n)
  }

  /** All five cross-task fields read as in a full-board enrichment under `v`. */
  ghost predicate FiveHeld(sc: Schema, c: Cache, s: Store, v: Surroundings, k: Key) {
    forall n :: IsFive(n) ==> At(FieldsOf(s, k), n) == At(FiveUnder(sc, c, v, k), n)
  }

  /** The replica holds of `k` what reads find under `own` and `five`. */
  ghost predicate HeldUnder(sc: Schema, c: Cache, s: Store, own: Surroundings, five: Surroundings, k: Key) {
    && (k in s ==> Has(c, k))
    && RawHeld(sc, c, s, k)
    && (Has(c, k) ==> OwnHeld(sc, c, s, own, k))
    && (Has(c, k) && k.kind == "task" ==> FiveHeld(sc, c, s, five, k))
  }

  /** The replica holds of `k` what a fresh read finds. */
  ghost predicate HeldFor(sc: Schema, c: Cache, s: Store, k: Key) {
    HeldUnder(sc, c, s, Around(sc, c), Around(sc, c), k)
  }

  /** The replica is a faithful copy of the enriched board. */
  ghost predicate Converged(sc: Schema, c: Cache, s: Store) {
    forall k :: HeldFor(sc, c, s, k)
  }

  /** A start with nothing queued and a faithful copy, just read. */
  ghost predicate Initial(sc: Schema, s: System) {
    && Unique(s.cache)
    && (forall k: Key :: RawOnly(sc, k.kind, FieldsIn(s.cache, k)))
    && s.queue == []
    && s.bridge.snaps == map[]
    && Converged(Now(sc, s), s.cache, s.store)
    && (forall k :: s.own(k) == Around(Now(sc, s), s.cache))
    && (forall id :: s.five(id) == Around(Now(sc, s), s.cache))
  }

  // ---- the invariant ---------------------------------------------------------------

  ghost predicate SnapshotFull(snapshot: Fields) {
    forall n :: n in snapshot <==> IsFive(n)
  }

  /** The replica holds exactly what the snapshot says was sent. */
  ghost predicate SnapshotHeld(snapshot: Fields, held: Fields) {
    forall n :: n in snapshot ==> At(held, n) == snapshot[n]
  }

  ghost predicate SnapshotOk(s: System, k: Key) {
    k.id in s.bridge.snaps ==>
      && SnapshotFull(s.bridge.snaps[k.id])
      && (Has(s.cache, k) || Pending(s.queue, k))
      && (!Pending(s.queue, k) ==> SnapshotHeld(s.bridge.snaps[k.id], FieldsOf(s.store, k)))
  }

  ghost predicate SettlesRight(sc: Schema, s: System, k: Key) {
    forall f :: Plain(sc, k.kind, f) ==>
      Settled(s.queue, k, f, At(FieldsOf(s.store, k), f)) == At(FieldsIn(s.cache, k), f)
  }

  ghost predicate LifeOk(s: System, k: Key) {
    && (Pending(s.queue, k) ==> (LastLive(s.queue, k) <==> Has(s.cache, k)))
    && (!Pending(s.queue, k) && k in s.store ==> Has(s.cache, k))
  }

  /** What concerns the stored fields of `k` and whether it lives. */
  ghost predicate StoredOk(sc: Schema, s: System, k: Key) {
    && RawOnly(sc, k.kind, FieldsIn(s.cache, k))
    && LifeOk(s, k)
    && SettlesRight(sc, s, k)
  }

  ghost predicate KeyOk(sc: Schema, s: System, k: Key) {
    && StoredOk(sc, s, k)
    && (!Pending(s.queue, k) && Has(s.cache, k) ==> OwnHeld(sc, s.cache, s.store, s.own(k), k))
    && (k.kind == "task" ==> SnapshotOk(s, k))
    && (k.kind == "task" && !Pending(s.queue, k) && Has(s.cache, k) && !WillFanOut(s.queue, s.bridge.seen) ==>
          FiveHeld(sc, s.cache, s.store, s.five(k.id), k))
  }

  ghost predicate EventRaw(sc: Schema, e: EntityEvent) {
    e.EntityChanged? ==> forall n :: NamesField(e.changes, n) ==> n !in sc.derived(e.kind)
  }

  ghost predicate Inv(sc: Schema, s: System) {
    && Unique(s.cache)
    && (forall i :: 0 <= i < |s.queue| ==> EventRaw(sc, s.queue[i]))
    && (forall k :: KeyOk(sc, s, k))
  }

  lemma InitialInv(sc: Schema, s: System)
    requires Initial(sc, s)
    ensures Inv(sc, s)
  {
    forall k ensures KeyOk(sc, s, k) {
      assert HeldFor(Now(sc, s), s.cache, s.store, k);
      HeldAnytime(sc, s.outside, s.cache, s.store, s.own(k), s.five(k.id), k);
    }
  }

  lemma {:induction false} TasksAnytime(sc: Schema, x: nat, c: Cache, v: Surroundings)
    ensures TasksUnder(sc.(outside := x), c, v) == TasksUnder(sc, c, v)
  {
    if c != [] { TasksAnytime(sc, x, c[1..], v); }
  }

  /** Under given surroundings it does not matter what is outside now. */
  lemma HeldAnytime(sc: Schema, x: nat, c: Cache, s: Store, own: Surroundings, five: Surroundings, k: Key)
    ensures HeldUnder(sc.(outside := x), c, s, own, five, k) <==> HeldUnder(sc, c, s, own, five, k)
  {
    var sc' := sc.(outside := x);
    TasksAnytime(sc, x, c, five);
    assert FiveUnder(sc', c, five, k) == FiveUnder(sc, c, five, k);
    forall n ensures OwnValue(sc', c, own, k, n) == OwnValue(sc, c, own, k, n) && OwnName(sc', k.kind, n) == OwnName(sc, k.kind, n) {
    }
    assert forall f :: Plain(sc', k.kind, f) == Plain(sc, k.kind, f);
  }

  lemma InvAnytime(sc: Schema, x: nat, s: System)
    ensures Inv(sc.(outside := x), s) <==> Inv(sc, s)
  {
    forall k ensures KeyOk(sc.(outside := x), s, k) <==> KeyOk(sc, s, k) { KeyAnytime(sc, x, s, k); }
    assert forall e :: EventRaw(sc.(outside := x), e) <==> EventRaw(sc, e);
  }

  lemma KeyAnytime(sc: Schema, x: nat, s: System, k: Key)
    ensures KeyOk(sc.(outside := x), s, k) <==> KeyOk(sc, s, k)
  {
    var sc' := sc.(outside := x);
    TasksAnytime(sc, x, s.cache, s.five(k.id));
    assert FiveUnder(sc', s.cache, s.five(k.id), k) == FiveUnder(sc, s.cache, s.five(k.id), k);
    assert FiveHeld(sc', s.cache, s.store, s.five(k.id), k) <==> FiveHeld(sc, s.cache, s.store, s.five(k.id), k);
    OwnAnytime(sc, x, s.cache, s.store, s.own(k), k);
    assert forall f :: Plain(sc', k.kind, f) == Plain(sc, k.kind, f);
    assert SettlesRight(sc', s, k) <==> SettlesRight(sc, s, k);
    assert RawOnly(sc', k.kind, FieldsIn(s.cache, k)) <==> RawOnly(sc, k.kind, FieldsIn(s.cache, k));
  }

  lemma OwnAnytime(sc: Schema, x: nat, c: Cache, s: Store, v: Surroundings, k: Key)
    ensures OwnHeld(sc.(outside := x), c, s, v, k) <==> OwnHeld(sc, c, s, v, k)
  {
    var sc' := sc.(outside := x);
    forall n ensures OwnValue(sc', c, v, k, n) == OwnValue(sc, c, v, k, n) && OwnName(sc', k.kind, n) == OwnName(sc, k.kind, n) {
    }
  }

  /** With nothing queued, the replica holds of every entity what a read under
      its last surroundings finds. */
  lemma QuietInv(sc: Schema, s: System, k: Key)
    requires Inv(sc, s) && s.queue == []
    ensures HeldUnder(sc, s.cache, s.store, s.own(k), s.five(k.id), k)
  {
    assert KeyOk(sc, s, k);
  }

  // ---- writers ----------------------------------------------------------------------

  lemma PutKeepsQueueRaw(sc: Schema, s: System, e: Entity, changes: seq<FieldChange>)
    requires Inv(sc, s) && RawOnly(sc, e.kind, e.fields) && IsDiff(FieldsIn(s.cache, e.KeyOf()), e.fields, changes)
    ensures EventRaw(sc, EntityChanged(e.kind, e.id, changes))
  {
    assert KeyOk(sc, s, e.KeyOf());
    forall n | NamesField(changes, n) ensures n !in sc.derived(e.kind) {
      DiffAssigns(FieldsIn(s.cache, e.KeyOf()), e.fields, changes, n);
    }
  }

  /** The facts every step that only queues an event keeps for key `k`. */
  lemma QueueAppendFacts(q: seq<EntityEvent>, e: EntityEvent, k: Key, seen: set<Key>)
    ensures Pending(q + [e], k) <==> Pending(q, k) || Concerns(e, k)
    ensures LastLive(q + [e], k) <==> if Concerns(e, k) then e.EntityChanged? else LastLive(q, k)
    ensures WillFanOut(q + [e], seen) <==> WillFanOut(q, seen) || FansOut(e, SeenAfterAll(seen, q))
  {
    PendingAppend(q, e, k);
    LastLiveAppend(q, e, k);
    WillFanOutAppend(q, e, seen);
  }

  lemma FiveUnderLocal(sc: Schema, c: Cache, c': Cache, v: Surroundings, k: Key)
    requires Find(c, k) == Find(c', k)
    requires forall e :: FiveOf(e, TasksUnder(sc, c, v), v.terminal) == FiveOf(e, TasksUnder(sc, c', v), v.terminal)
    ensures FiveUnder(sc, c, v, k) == FiveUnder(sc, c', v, k)
  {
  }

  lemma TriggersUnderived(sc: Schema, e: Entity, v: Surroundings)
    requires WellFormed(sc) && e.kind == "task"
    ensures NodeOf(ApplyCompute(sc, e, v)) == NodeOf(e)
  {
    assert TASK_FANOUT_TRIGGER_FIELDS[0] == "position_column" && TASK_FANOUT_TRIGGER_FIELDS[1] == "depends_on";
    assert "position_column" in TASK_FANOUT_TRIGGER_FIELDS && "depends_on" in TASK_FANOUT_TRIGGER_FIELDS;
    assert sc.derive(e.kind, e.fields, v).Keys <= sc.derived("task") + sc.rewritten("task");
    assert Plain(sc, "task", "position_column") && Plain(sc, "task", "depends_on");
  }

  lemma UntouchedTriggers(old_: Fields, new_: Fields, changes: seq<FieldChange>)
    requires IsDiff(old_, new_, changes) && !TouchesFanoutField(changes)
    ensures GetStr(old_, "position_column") == GetStr(new_, "position_column")
    ensures GetStringList(old_, "depends_on") == GetStringList(new_, "depends_on")
  {
    assert TASK_FANOUT_TRIGGER_FIELDS[0] == "position_column" && TASK_FANOUT_TRIGGER_FIELDS[1] == "depends_on";
    assert !NamesField(changes, "position_column") && !NamesField(changes, "depends_on");
    assert !Differs(old_, new_, "position_column") && !Differs(old_, new_, "depends_on");
  }

  /** A write whose event will not fan out moves no other task's five fields,
      as they read under any surroundings. */
  lemma QuietPutLocal(sc: Schema, c: Cache, v: Surroundings, e: Entity, changes: seq<FieldChange>, k: Key)
    requires WellFormed(sc) && IsDiff(FieldsIn(c, e.KeyOf()), e.fields, changes) && k != e.KeyOf()
    requires e.kind == "task" ==> !TouchesFanoutField(changes)
    ensures FiveUnder(sc, Insert(c, e), v, k) == FiveUnder(sc, c, v, k)
  {
    FindInsert(c, e, k);
    forall x ensures FiveOf(x, TasksUnder(sc, c, v), v.terminal) == FiveOf(x, TasksUnder(sc, Insert(c, e), v), v.terminal) {
      if e.kind == "task" {
        UntouchedTriggers(FieldsIn(c, e.KeyOf()), e.fields, changes);
        TriggersUnderived(sc, e, v);
      }
      if e.kind == "task" && !Has(c, e.KeyOf()) {
        ListTasksInsertNew(sc, c, v, e);
        FiveUnmovedByBareTask(x, TasksUnder(sc, c, v), ApplyCompute(sc, e, v), v.terminal);
      } else {
        if e.kind == "task" {
          FindKey(c, e.KeyOf());
          TriggersUnderived(sc, Find(c, e.KeyOf()).value, v);
        }
        GraphInsert(sc, c, v, e);
        FiveLocal(x, TasksUnder(sc, c, v), TasksUnder(sc, Insert(c, e), v), v.terminal);
      }
    }
    FiveUnderLocal(sc, c, Insert(c, e), v, k);
  }

  lemma PutSettles(sc: Schema, s: System, e: Entity, changes: seq<FieldChange>, k: Key)
    requires SettlesRight(sc, s, k) && IsDiff(FieldsIn(s.cache, e.KeyOf()), e.fields, changes)
    ensures SettlesRight(sc, s.(cache := Insert(s.cache, e),
                                queue := s.queue + [EntityChanged(e.kind, e.id, changes)]), k)
  {
    var evt := EntityChanged(e.kind, e.id, changes);
    FindInsert(s.cache, e, k);
    forall f | Plain(sc, k.kind, f)
      ensures Settled(s.queue + [evt], k, f, At(FieldsOf(s.store, k), f)) == At(FieldsIn(Insert(s.cache, e), k), f)
    {
      SettledAppend(s.queue, evt, k, f, At(FieldsOf(s.store, k), f));
      DiffAssigns(FieldsIn(s.cache, e.KeyOf()), e.fields, changes, f);
    }
  }

  lemma PutKeeps(sc: Schema, s: System, e: Entity, changes: seq<FieldChange>, k: Key)
    requires WellFormed(sc) && Inv(sc, s) && Enabled(sc, s, Put(e, changes))
    requires !(Has(s.cache, e.KeyOf()) && FieldsIn(s.cache, e.KeyOf()) == e.fields)
    ensures KeyOk(sc, Step(sc, s, Put(e, changes)), k)
  {
    var evt := EntityChanged(e.kind, e.id, changes);
    var s' := Step(sc, s, Put(e, changes));
    assert KeyOk(sc, s, k);
    FindInsert(s.cache, e, k);
    QueueAppendFacts(s.queue, evt, k, s.bridge.seen);
    PutSettles(sc, s, e, changes, k);
    if k != e.KeyOf() && !WillFanOut(s'.queue, s.bridge.seen) {
      QuietPutLocal(sc, s.cache, s.five(k.id), e, changes, k);
    }
  }

  lemma RemoveSettles(sc: Schema, s: System, k0: Key, k: Key)
    requires SettlesRight(sc, s, k) && Unique(s.cache)
    ensures SettlesRight(sc, s.(cache := Drop(s.cache, k0),
                                queue := s.queue + [EntityDeleted(k0.kind, k0.id)]), k)
  {
    var evt := EntityDeleted(k0.kind, k0.id);
    FindDrop(s.cache, k0, k);
    forall f | Plain(sc, k.kind, f)
      ensures Settled(s.queue + [evt], k, f, At(FieldsOf(s.store, k), f)) == At(FieldsIn(Drop(s.cache, k0), k), f)
    {
      SettledAppend(s.queue, evt, k, f, At(FieldsOf(s.store, k), f));
    }
  }

  lemma RemoveKeeps(sc: Schema, s: System, k0: Key, k: Key)
    requires WellFormed(sc) && Inv(sc, s) && Enabled(sc, s, Remove(k0))
    ensures KeyOk(sc, Step(sc, s, Remove(k0)), k)
  {
    var evt := EntityDeleted(k0.kind, k0.id);
    var c' := Drop(s.cache, k0);
    assert KeyOk(sc, s, k);
    FindDrop(s.cache, k0, k);
    QueueAppendFacts(s.queue, evt, k, s.bridge.seen);
    RemoveSettles(sc, s, k0, k);
    if k != k0 && k0.kind != "task" {
      ListTasksDrop(sc, s.cache, s.five(k.id), k0);
      FiveUnderLocal(sc, s.cache, c', s.five(k.id), k);
    }
  }

  lemma AttachKeeps(sc: Schema, s: System, kind: string, filename: string, removed: bool, k: Key)
    requires Inv(sc, s)
    ensures KeyOk(sc, Step(sc, s, Attach(kind, filename, removed)), k)
  {
    var evt := AttachmentTouched(kind, filename, removed);
    var s' := Step(sc, s, Attach(kind, filename, removed));
    assert KeyOk(sc, s, k);
    QueueAppendFacts(s.queue, evt, k, s.bridge.seen);
    forall f | Plain(sc, k.kind, f)
      ensures Settled(s'.queue, k, f, At(FieldsOf(s'.store, k), f)) == At(FieldsIn(s'.cache, k), f)
    {
      SettledAppend(s.queue, evt, k, f, At(FieldsOf(s.store, k), f));
    }
  }
}
