/** The bridge from the entity cache to the frontend: what each cache event
    resolves to, first as functions on the bridge's value, then as the methods
    that update the bridge in place. */
module Watcher {
  import opened Json
  import opened EntityCache
  import opened TaskGraph
  import opened Sorting

  const TASK_FANOUT_TRIGGER_FIELDS: seq<string> := ["position_column", "depends_on"]

  datatype EntityEvent =
    | EntityChanged(kind: string, id: string, changes: seq<FieldChange>)
    | EntityDeleted(kind: string, id: string)
    | AttachmentTouched(kind: string, filename: string, removed: bool)

  datatype WatchEvent =
    | EntityCreated(kind: string, id: string, fields: Fields)
    | EntityRemoved(kind: string, id: string)
    | EntityFieldChanged(kind: string, id: string, changes: seq<FieldChange>)
    | AttachmentChanged(kind: string, filename: string, removed: bool)

  /** What deriving one entity's fields may read besides its own: the names of
      the tags, the first and the terminal column, how many tasks there are and
      how many sit in the terminal column, and, as `outside`, whatever is not in
      the cache at all (the clock, the change logs, the files). */
  datatype Surroundings = Surroundings(
    tagNames: set<string>, first: string, terminal: string, done: nat, total: nat, outside: nat)

  /** How reads derive fields: `derive` gives every field that a read adds or
      rewrites, `computed` the names the field registry marks as computed,
      `derived` every name that is never stored, and `rewritten` the stored names
      whose value a read replaces. `outside` is what is outside the cache now. */
  datatype Schema = Schema(
    derive: (string, Fields, Surroundings) -> Fields,
    computed: string -> seq<string>,
    derived: string -> set<string>,
    rewritten: string -> set<string>,
    outside: nat)

  ghost predicate WellFormed(sc: Schema) {
    && (forall kind, f, v :: sc.derive(kind, f, v).Keys <= sc.derived(kind) + sc.rewritten(kind))
    && (forall kind, n :: n in sc.computed(kind) ==> n in sc.derived(kind))
    && (forall kind, n :: n in sc.rewritten(kind) ==> n !in sc.derived(kind))
    && (forall n :: IsFive(n) ==> n in sc.derived("task"))
    && (forall n :: n in TASK_FANOUT_TRIGGER_FIELDS ==> Plain(sc, "task", n))
  }

  /** A stored field that reads leave as it is. */
  predicate Plain(sc: Schema, kind: string, n: string) {
    n !in sc.derived(kind) && n !in sc.rewritten(kind)
  }

  /** A stored field map names no derived field. */
  ghost predicate RawOnly(sc: Schema, kind: string, f: Fields) {
    forall n :: n in f ==> n !in sc.derived(kind)
  }

  // ---- reading through the entity context --------------------------------------

  function ApplyCompute(sc: Schema, e: Entity, v: Surroundings): Entity {
    e.(fields := e.fields + sc.derive(e.kind, e.fields, v))
  }

  function TasksUnder(sc: Schema, c: Cache, v: Surroundings): seq<Entity> {
    if c == [] then []
    else (if c[0].kind == "task" then [ApplyCompute(sc, c[0], v)] else []) + TasksUnder(sc, c[1..], v)
  }

  function ListTasks(sc: Schema, c: Cache): seq<Entity> { TasksUnder(sc, c, Around(sc, c)) }

  function OrderOf(e: Entity): int {
    if "order" in e.fields && e.fields["order"].Num? && e.fields["order"].n >= 0 then e.fields["order"].n else 0
  }

  predicate ByOrder(a: Entity, b: Entity) { OrderOf(a) <= OrderOf(b) }

  function ListColumns(c: Cache): seq<Entity> {
    if c == [] then []
    else (if c[0].kind == "column" then [c[0]] else []) + ListColumns(c[1..])
  }

  /** The last column of the order-sorted list, or `done` without columns. */
  function TerminalColumn(c: Cache): string {
    var columns := StableSort(ListColumns(c), ByOrder);
    if columns == [] then "done" else columns[|columns| - 1].id
  }

  const U64_MAX: nat := 0xFFFF_FFFF_FFFF_FFFF

  /** The order by which the first column is chosen: a missing one comes last. */
  function StartOrder(e: Entity): int {
    if "order" in e.fields && e.fields["order"].Num? && e.fields["order"].n >= 0 then e.fields["order"].n else U64_MAX
  }

  /** The column of the lowest order, the last of several. */
  function Lowest(columns: seq<Entity>): Option<Entity> {
    if columns == [] then None
    else
      var last, rest := columns[|columns| - 1], Lowest(columns[..|columns| - 1]);
      if rest.Some? && StartOrder(rest.value) < StartOrder(last) then rest else Some(last)
  }

  function FirstColumn(c: Cache): string {
    match Lowest(ListColumns(c))
    case Some(e) => e.id
    case None => "todo"
  }

  function TagNames(c: Cache): set<string> {
    set e | e in c && e.kind == "tag" && GetStr(e.fields, "tag_name").Some? :: GetStr(e.fields, "tag_name").value
  }

  /** How many tasks sit in a column, a task without one counting as `todo`. */
  function TasksIn(c: Cache, column: string): nat {
    if c == [] then 0
    else (if c[0].kind == "task" && ColumnOr(c[0], "todo") == column then 1 else 0) + TasksIn(c[1..], column)
  }

  function TaskCount(c: Cache): nat {
    if c == [] then 0 else (if c[0].kind == "task" then 1 else 0) + TaskCount(c[1..])
  }

  /** What a read of the cache finds around an entity. */
  function Around(sc: Schema, c: Cache): Surroundings {
    var terminal := TerminalColumn(c);
    Surroundings(TagNames(c), FirstColumn(c), terminal, TasksIn(c, terminal), TaskCount(c), sc.outside)
  }

  function ReadEnriched(sc: Schema, c: Cache, kind: string, id: string): Option<Entity> {
    match Find(c, Key(kind, id))
    case None => None
    case Some(e) =>
      var read := ApplyCompute(sc, e, Around(sc, c));
      if kind == "task" then Some(EnrichTask(read, ListTasks(sc, c), TerminalColumn(c))) else Some(read)
  }

  // ---- snapshots and their diffs -------------------------------------------------

  /** The computed task fields present in a field map. */
  function SnapshotOf(f: Fields): Fields {
    map n | n in f && n in TASK_COMPUTED_FIELDS :: f[n]
  }

  /** The change one field calls for, if `old_` lacks it or holds it differently. */
  function OneDiff(old_: Fields, new_: Fields, n: string): seq<FieldChange> {
    if n in new_ && !(n in old_ && old_[n] == new_[n]) then [FieldChange(n, new_[n])] else []
  }

  /** The listed fields of `new_` that `old_` lacks or holds differently. */
  function DiffTo(old_: Fields, new_: Fields, names: seq<string>): seq<FieldChange> {
    if names == [] then []
    else
      var n := names[|names| - 1];
      DiffTo(old_, new_, names[..|names| - 1]) + OneDiff(old_, new_, n)
  }

  // ---- resolving one event, on values ---------------------------------------------

  datatype Bridge = Bridge(seen: set<Key>, snaps: map<string, Fields>)

  datatype FanOutResult = FanOutResult(snaps: map<string, Fields>, events: seq<WatchEvent>)

  datatype Resolved = Resolved(bridge: Bridge, out: seq<WatchEvent>)

  predicate TouchesFanoutField(changes: seq<FieldChange>) {
    exists i :: 0 <= i < |changes| && changes[i].field in TASK_FANOUT_TRIGGER_FIELDS
  }

  function Baseline(snaps: map<string, Fields>, id: string): Fields {
    if id in snaps then snaps[id] else map[]
  }

  /** One iteration of the fan-out: refresh the task's snapshot, and announce
      its differences unless it is the trigger. */
  function Visit(id: string, current: Fields, trigger: string, r: FanOutResult): FanOutResult {
    var changes := DiffTo(Baseline(r.snaps, id), current, TASK_COMPUTED_FIELDS);
    FanOutResult(
      r.snaps[id := current],
      if id == trigger || changes == [] then r.events
      else r.events + [EntityFieldChanged("task", id, changes)])
  }

  function VisitTask(e: Entity, all: seq<Entity>, terminal: string, trigger: string, r: FanOutResult): FanOutResult {
    Visit(e.id, SnapshotOf(EnrichTask(e, all, terminal).fields), trigger, r)
  }

  function FanOut(list: seq<Entity>, all: seq<Entity>, terminal: string, trigger: string,
                  snaps: map<string, Fields>): FanOutResult {
    if list == [] then FanOutResult(snaps, [])
    else VisitTask(list[|list| - 1], all, terminal, trigger,
                   FanOut(list[..|list| - 1], all, terminal, trigger, snaps))
  }

  function FanOutTasks(sc: Schema, c: Cache, trigger: string, snaps: map<string, Fields>): FanOutResult {
    FanOut(ListTasks(sc, c), ListTasks(sc, c), TerminalColumn(c), trigger, snaps)
  }

  function NonNull(f: Fields): Fields {
    map n | n in f && f[n] != Null :: f[n]
  }

  function WithExtras(names: seq<string>, extras: seq<string>): seq<string>
    decreases |extras|
  {
    if extras == [] then names
    else WithExtras(if extras[0] in names then names else names + [extras[0]], extras[1..])
  }

  /** The computed field names appended to a field-change event, sorted. */
  function ComputedNames(sc: Schema, kind: string): seq<string> {
    var registered := sc.computed(kind);
    StableSort(if kind == "task" then WithExtras(registered, TASK_COMPUTED_FIELDS) else registered, LessEq)
  }

  function AppendComputed(names: seq<string>, existing: set<string>, f: Fields, changes: seq<FieldChange>): seq<FieldChange> {
    if names == [] then changes
    else
      var n := names[|names| - 1];
      AppendComputed(names[..|names| - 1], existing, f, changes) +
      if n !in existing && n in f && f[n] != Null then [FieldChange(n, f[n])] else []
  }

  function FieldNames(changes: seq<FieldChange>): set<string> {
    set i | 0 <= i < |changes| :: changes[i].field
  }

  function BuildCreated(kind: string, id: string, enriched: Option<Entity>, changes: seq<FieldChange>): WatchEvent {
    EntityCreated(kind, id,
      match enriched
      case Some(e) => NonNull(e.fields)
      case None => Patch(map[], changes))
  }

  function BuildFieldChanged(sc: Schema, kind: string, id: string, enriched: Option<Entity>,
                             changes: seq<FieldChange>): WatchEvent {
    EntityFieldChanged(kind, id,
      match enriched
      case Some(e) => AppendComputed(ComputedNames(sc, kind), FieldNames(changes), e.fields, changes)
      case None => changes)
  }

  predicate TouchesGraph(primary: WatchEvent) {
    primary.EntityCreated? || primary.EntityRemoved? ||
    (primary.EntityFieldChanged? && TouchesFanoutField(primary.changes))
  }

  function ApplyTaskFanout(sc: Schema, c: Cache, b: Bridge, id: string, enriched: Option<Entity>,
                           primary: WatchEvent): Resolved {
    if TouchesGraph(primary) then
      var r := FanOutTasks(sc, c, id, b.snaps);
      Resolved(b.(snaps := r.snaps), [primary] + r.events)
    else if enriched.Some? then
      Resolved(b.(snaps := b.snaps[id := SnapshotOf(enriched.value.fields)]), [primary])
    else Resolved(b, [primary])
  }

  function RawChanged(b: Bridge, kind: string, id: string, changes: seq<FieldChange>): Resolved {
    var key := Key(kind, id);
    Resolved(b.(seen := b.seen + {key}),
      [if key !in b.seen then EntityCreated(kind, id, Patch(map[], changes))
       else EntityFieldChanged(kind, id, changes)])
  }

  function PrimaryOf(sc: Schema, c: Cache, b: Bridge, kind: string, id: string, changes: seq<FieldChange>): WatchEvent {
    var enriched := ReadEnriched(sc, c, kind, id);
    if Key(kind, id) !in b.seen then BuildCreated(kind, id, enriched, changes)
    else BuildFieldChanged(sc, kind, id, enriched, changes)
  }

  function ResolveChanged(sc: Schema, c: Cache, available: bool, b: Bridge,
                          kind: string, id: string, changes: seq<FieldChange>): Resolved {
    if !available then RawChanged(b, kind, id, changes)
    else
      var primary := PrimaryOf(sc, c, b, kind, id, changes);
      var b' := b.(seen := b.seen + {Key(kind, id)});
      if kind == "task" then ApplyTaskFanout(sc, c, b', id, ReadEnriched(sc, c, kind, id), primary)
      else Resolved(b', [primary])
  }

  function ResolveDeleted(sc: Schema, c: Cache, available: bool, b: Bridge, kind: string, id: string): Resolved {
    var removed := EntityRemoved(kind, id);
    var b' := b.(seen := b.seen - {Key(kind, id)});
    if kind != "task" then Resolved(b', [removed])
    else
      var snaps := b.snaps - {id};
      if !available then Resolved(b'.(snaps := snaps), [removed])
      else
        var r := FanOutTasks(sc, c, id, snaps);
        Resolved(b'.(snaps := r.snaps), [removed] + r.events)
  }

  /** What one cache event resolves to against the then-current cache.
      `available` says whether the entity context could be opened. */
  function Resolve(sc: Schema, c: Cache, available: bool, b: Bridge, evt: EntityEvent): Resolved {
    match evt
    case EntityChanged(kind, id, changes) => ResolveChanged(sc, c, available, b, kind, id, changes)
    case EntityDeleted(kind, id) => ResolveDeleted(sc, c, available, b, kind, id)
    case AttachmentTouched(kind, filename, removed) => Resolved(b, [AttachmentChanged(kind, filename, removed)])
  }
}
