/** When a write leaves the replica stale: the writes whose events visit nobody
    although they move what other entities read around themselves, with the
    exact condition under which the replica is right all the same. */
module StaleReads {
  import opened Json
  import opened EntityCache
  import opened TaskGraph
  import opened Sorting
  import opened Watcher
  import opened Replica
  import opened TaskLists
  import opened Convergence
  import opened Delivery
  import opened Quiescence

  // ---- one entity, other surroundings -------------------------------------------------------

  /** Moving the terminal column from `t` to `u` leaves `e` alone: each of its
      dependencies is met under both or neither, and `e` itself, if ready or
      depended on, sits in both or neither. */
  ghost predicate Spares(e: Entity, all: seq<Entity>, t: string, u: string) {
    && (forall d :: d in Deps(e) ==> (DepMet(d, all, t) <==> DepMet(d, all, u)))
    && (TaskIsReady(e, all, t) || Dependents(e.id, all) != [] ==> (ColumnOr(e, "") == t <==> ColumnOr(e, "") == u))
  }

  function BodyTags(e: Entity): seq<string> { GetStringList(e.fields, "tags") }

  /** The two readings of a task filter by the same tags. */
  predicate SameFilter(x: Entity, y: Entity, all: seq<Entity>, t: string) {
    FilterTags(BodyTags(x), VirtualTags(x, all, t)) == FilterTags(BodyTags(y), VirtualTags(x, all, t))
  }

  lemma SparedLists(e: Entity, all: seq<Entity>, t: string, u: string)
    requires Spares(e, all, t, u)
    ensures TaskIsReady(e, all, t) == TaskIsReady(e, all, u) && Unmet(Deps(e), all, t) == Unmet(Deps(e), all, u)
    ensures VirtualTags(e, all, t) == VirtualTags(e, all, u)
  {
    UnmetAlike(Deps(e), all, t, u);
    DependentsNonEmpty(e.id, all);
    assert TaskIsReady(e, all, t) == TaskIsReady(e, all, u);
    assert MatchesReady(e, all, t) == MatchesReady(e, all, u);
    assert MatchesBlocking(e, all, t) == MatchesBlocking(e, all, u);
  }

  lemma {:induction false} UnmetAlike(deps: seq<string>, all: seq<Entity>, t: string, u: string)
    requires forall d :: d in deps ==> (DepMet(d, all, t) <==> DepMet(d, all, u))
    ensures Unmet(deps, all, t) == Unmet(deps, all, u)
  {
    if deps != [] {
      assert deps[0] in deps;
      UnmetAlike(deps[1..], all, t, u);
    }
  }

  lemma ListsSpared(e: Entity, all: seq<Entity>, t: string, u: string)
    requires Unmet(Deps(e), all, t) == Unmet(Deps(e), all, u) && VirtualTags(e, all, t) == VirtualTags(e, all, u)
    ensures Spares(e, all, t, u)
  {
    forall d | d in Deps(e) ensures DepMet(d, all, t) <==> DepMet(d, all, u) {
      UnmetMembers(Deps(e), all, t, d);
      UnmetMembers(Deps(e), all, u, d);
    }
    TagMembers(e, all, t);
    TagMembers(e, all, u);
    DependentsNonEmpty(e.id, all);
  }

  /** The lists inside two equal sets of five fields are equal. */
  lemma FiveParts(r1: bool, b1: seq<string>, k1: seq<string>, v1: seq<string>, f1: seq<string>,
                  r2: bool, b2: seq<string>, k2: seq<string>, v2: seq<string>, f2: seq<string>)
    requires FiveFields(r1, b1, k1, v1, f1) == FiveFields(r2, b2, k2, v2, f2)
    ensures b1 == b2 && v1 == v2 && f1 == f2
  {
    var f, g := FiveFields(r1, b1, k1, v1, f1), FiveFields(r2, b2, k2, v2, f2);
    assert f["blocked_by"] == g["blocked_by"] && f["virtual_tags"] == g["virtual_tags"] && f["filter_tags"] == g["filter_tags"];
    StrsInjective(b1, b2);
    StrsInjective(v1, v2);
    StrsInjective(f1, f2);
  }

  lemma SameFiveLists(x: Entity, y: Entity, all: seq<Entity>, t: string, u: string)
    requires NodeOf(x) == NodeOf(y) && FiveOf(x, all, t) == FiveOf(y, all, u)
    ensures Unmet(Deps(x), all, t) == Unmet(Deps(x), all, u) && VirtualTags(x, all, t) == VirtualTags(x, all, u)
    ensures FilterTags(BodyTags(x), VirtualTags(x, all, t)) == FilterTags(BodyTags(y), VirtualTags(x, all, u))
  {
    SameNodeTags(x, y, all, u);
    var vx, vy := VirtualTags(x, all, t), VirtualTags(y, all, u);
    FiveParts(TaskIsReady(x, all, t), TaskBlockedBy(x, all, t), Dependents(x.id, all), vx, FilterTags(BodyTags(x), vx),
              TaskIsReady(y, all, u), TaskBlockedBy(y, all, u), Dependents(y.id, all), vy, FilterTags(BodyTags(y), vy));
  }

  lemma SameNodeTags(x: Entity, y: Entity, all: seq<Entity>, u: string)
    requires NodeOf(x) == NodeOf(y)
    ensures VirtualTags(y, all, u) == VirtualTags(x, all, u)
  {
    assert x.id == y.id && Column(x) == Column(y) && Deps(x) == Deps(y);
  }

  /** Two readings of one task give the same five fields exactly when the move of
      the terminal column spares it and both filter by the same tags. */
  lemma FiveSpared(x: Entity, y: Entity, all: seq<Entity>, t: string, u: string)
    requires NodeOf(x) == NodeOf(y)
    ensures FiveOf(x, all, t) == FiveOf(y, all, u) <==> Spares(x, all, t, u) && SameFilter(x, y, all, t)
  {
    SameNodeTags(x, y, all, u);
    if FiveOf(x, all, t) == FiveOf(y, all, u) {
      SameFiveLists(x, y, all, t, u);
      ListsSpared(x, all, t, u);
    }
    if Spares(x, all, t, u) && SameFilter(x, y, all, t) { SparedLists(x, all, t, u); }
  }

  lemma {:induction false} GraphAny(sc: Schema, c: Cache, u: Surroundings, v: Surroundings)
    requires WellFormed(sc)
    ensures Graph(TasksUnder(sc, c, u)) == Graph(TasksUnder(sc, c, v))
  {
    if c != [] {
      GraphAny(sc, c[1..], u, v);
      if c[0].kind == "task" {
        TriggersUnderived(sc, c[0], u);
        TriggersUnderived(sc, c[0], v);
        GraphHead(ApplyCompute(sc, c[0], u), TasksUnder(sc, c[1..], u));
        GraphHead(ApplyCompute(sc, c[0], v), TasksUnder(sc, c[1..], v));
        assert TasksUnder(sc, c, u) == [ApplyCompute(sc, c[0], u)] + TasksUnder(sc, c[1..], u);
        assert TasksUnder(sc, c, v) == [ApplyCompute(sc, c[0], v)] + TasksUnder(sc, c[1..], v);
      } else {
        assert TasksUnder(sc, c, u) == TasksUnder(sc, c[1..], u) && TasksUnder(sc, c, v) == TasksUnder(sc, c[1..], v);
      }
    }
  }

  lemma GraphHead(e: Entity, rest: seq<Entity>)
    ensures Graph([e] + rest) == [NodeOf(e)] + Graph(rest)
  {
    assert ([e] + rest)[1..] == rest;
  }

  /** What a task reads as under `u`. */
  function Reading(sc: Schema, c: Cache, u: Surroundings, k: Key): Entity
    requires Has(c, k)
  {
    ApplyCompute(sc, Find(c, k).value, u)
  }

  /** Going from `u` to `v` moves none of the five fields of task `k`. */
  ghost predicate FiveStay(sc: Schema, c: Cache, u: Surroundings, v: Surroundings, k: Key)
    requires Has(c, k)
  {
    var x, y, all := Reading(sc, c, u, k), Reading(sc, c, v, k), TasksUnder(sc, c, u);
    Spares(x, all, u.terminal, v.terminal) && SameFilter(x, y, all, u.terminal)
  }

  lemma FiveStayMeans(sc: Schema, c: Cache, u: Surroundings, v: Surroundings, k: Key)
    requires WellFormed(sc) && Has(c, k) && k.kind == "task"
    ensures FiveUnder(sc, c, u, k) == FiveUnder(sc, c, v, k) <==> FiveStay(sc, c, u, v, k)
  {
    var x, y := Reading(sc, c, u, k), Reading(sc, c, v, k);
    FindKey(c, k);
    TriggersUnderived(sc, Find(c, k).value, u);
    TriggersUnderived(sc, Find(c, k).value, v);
    GraphAny(sc, c, u, v);
    FiveLocal(y, TasksUnder(sc, c, v), TasksUnder(sc, c, u), v.terminal);
    FiveSpared(x, y, TasksUnder(sc, c, u), u.terminal, v.terminal);
  }

  /** Going from `u` to `v` moves no other computed field of `k` that has a value
      under `v`; one without a value under `u` must be in the copy already. */
  ghost predicate OwnStay(sc: Schema, c: Cache, s: Store, u: Surroundings, v: Surroundings, k: Key) {
    forall n :: OwnName(sc, k.kind, n) && OwnValue(sc, c, v, k, n) != Null ==>
      OwnValue(sc, c, v, k, n) == if OwnValue(sc, c, u, k, n) != Null then OwnValue(sc, c, u, k, n) else At(FieldsOf(s, k), n)
  }

  ghost predicate Stays(sc: Schema, c: Cache, s: Store, u: Surroundings, v: Surroundings, k: Key)
    requires Has(c, k)
  {
    OwnStay(sc, c, s, u, v, k) && (k.kind == "task" ==> FiveStay(sc, c, u, v, k))
  }

  /** A copy that is right under `u` is right under `v` exactly when the entity
      stays as it was. */
  lemma CopyStays(sc: Schema, c: Cache, s: Store, u: Surroundings, v: Surroundings, k: Key)
    requires WellFormed(sc) && Has(c, k) && HeldUnder(sc, c, s, u, u, k)
    ensures HeldUnder(sc, c, s, v, v, k) <==> Stays(sc, c, s, u, v, k)
  {
    OwnCopyStays(sc, c, s, u, v, k);
    if k.kind == "task" {
      FiveStayMeans(sc, c, u, v, k);
      FiveUnderFull(sc, c, u, k);
      FiveUnderFull(sc, c, v, k);
      SameFive(FiveUnder(sc, c, u, k), FiveUnder(sc, c, v, k), FieldsOf(s, k));
    }
  }

  lemma OwnCopyStays(sc: Schema, c: Cache, s: Store, u: Surroundings, v: Surroundings, k: Key)
    requires OwnHeld(sc, c, s, u, k)
    ensures OwnHeld(sc, c, s, v, k) <==> OwnStay(sc, c, s, u, v, k)
  {
    forall n | OwnName(sc, k.kind, n) && OwnValue(sc, c, v, k, n) != Null
      ensures At(FieldsOf(s, k), n) ==
              if OwnValue(sc, c, u, k, n) != Null then OwnValue(sc, c, u, k, n) else At(FieldsOf(s, k), n)
    {
    }
  }

  // ---- writes of anything but a task -----------------------------------------------------------

  /** Nothing waits and the replica is right. */
  ghost predicate AtRest(sc: Schema, s: System) {
    Inv(sc, s) && s.queue == [] && Converged(Now(sc, s), s.cache, s.store)
  }

  /** A write that changes something of an entity that is not a task, or the
      deletion of one. */
  ghost predicate OffGraph(sc: Schema, s: System, a: Action) {
    match a
    case Put(e, changes) => e.kind != "task" && Enabled(sc, s, a) && !(Has(s.cache, e.KeyOf()) && FieldsIn(s.cache, e.KeyOf()) == e.fields)
    case Remove(k) => k.kind != "task"
    case _ => false
  }

  /** The write, and the delivery of its event. */
  ghost function AfterWrite(sc: Schema, s: System, a: Action): System
    requires s.queue == [] && OffGraph(sc, s, a)
  {
    Step(sc, Step(sc, s, a), Deliver)
  }

  ghost function Written(s: System, a: Action): Cache
    requires a.Put? || a.Remove?
  {
    match a
    case Put(e, _) => Insert(s.cache, e)
    case Remove(k) => Drop(s.cache, k)
  }

  lemma OffGraphStep(sc: Schema, s: System, a: Action)
    requires WellFormed(sc) && s.queue == [] && OffGraph(sc, s, a)
    ensures var s', now := AfterWrite(sc, s, a), Now(sc, s);
            && s'.cache == Written(s, a) && s'.outside == s.outside
            && (a.Put? ==> s'.store == ApplyEvent(s.store, PrimaryOf(now, s'.cache, s.bridge, a.e.kind, a.e.id, a.changes)))
            && (a.Remove? ==> s'.store == s.store - {a.key})
  {
    var s1 := Step(sc, s, a);
    assert |s1.queue| == 1 && Now(sc, s1) == Now(sc, s);
    DeliveredNow(sc, s1);
  }

  lemma WrittenFind(s: System, a: Action, k: Key)
    requires Unique(s.cache) && (a.Put? || a.Remove?) && !Writes(a, k)
    ensures Find(Written(s, a), k) == Find(s.cache, k)
  {
    if a.Put? { FindInsert(s.cache, a.e, k); } else { FindDrop(s.cache, a.key, k); }
  }

  /** The written entity itself is right: it was read again, or removed. */
  lemma WrittenHeld(sc: Schema, s: System, a: Action, k: Key)
    requires WellFormed(sc) && AtRest(sc, s) && OffGraph(sc, s, a) && Writes(a, k)
    ensures var s' := AfterWrite(sc, s, a);
            HeldFor(Now(sc, s), s'.cache, s'.store, k)
  {
    var s', now := AfterWrite(sc, s, a), Now(sc, s);
    OffGraphStep(sc, s, a);
    assert HeldFor(now, s.cache, s.store, k);
    if a.Put? {
      FindInsert(s.cache, a.e, k);
      PutKeepsQueueRaw(sc, s, a.e, a.changes);
      assert EventRaw(now, EntityChanged(k.kind, k.id, a.changes));
      PrimaryHeld(now, s'.cache, s.bridge, s.store, k, a.changes);
      forall f | Plain(now, k.kind, f) ensures At(FieldsOf(s'.store, k), f) == At(FieldsIn(s'.cache, k), f) {
        DiffAssigns(FieldsIn(s.cache, k), a.e.fields, a.changes, f);
      }
    } else {
      FindDrop(s.cache, a.key, k);
    }
  }

  /** Every other entity's copy is as it was, and is now to be right under the
      surroundings the write leaves. */
  lemma OthersHeld(sc: Schema, s: System, a: Action, k: Key)
    requires WellFormed(sc) && AtRest(sc, s) && OffGraph(sc, s, a) && !Writes(a, k)
    ensures var s', now := AfterWrite(sc, s, a), Now(sc, s);
            HeldFor(now, s'.cache, s'.store, k) <==>
            (Has(s.cache, k) ==> Stays(now, s.cache, s.store, Around(now, s.cache), Around(now, s'.cache), k))
  {
    var s', now := AfterWrite(sc, s, a), Now(sc, s);
    var v := Around(now, s'.cache);
    OffGraphStep(sc, s, a);
    WrittenFind(s, a, k);
    assert HeldFor(now, s.cache, s.store, k);
    if a.Put? { PrimaryElsewhere(now, s'.cache, s.bridge, s.store, a.e.kind, a.e.id, a.changes, k); }
    assert FieldsOf(s'.store, k) == FieldsOf(s.store, k) && (k in s'.store <==> k in s.store);
    SameListRead(now, s, a, v, k);
    assert HeldUnder(now, s'.cache, s'.store, v, v, k) <==> HeldUnder(now, s.cache, s.store, v, v, k) by {
      CopyCarries(now, s.cache, s'.cache, s.store, s'.store, v, k);
    }
    if Has(s.cache, k) { CopyStays(now, s.cache, s.store, Around(now, s.cache), v, k); }
  }

  lemma CopyCarries(sc: Schema, c: Cache, c': Cache, s: Store, s': Store, v: Surroundings, k: Key)
    requires Find(c', k) == Find(c, k) && FieldsOf(s', k) == FieldsOf(s, k) && (k in s' <==> k in s)
    requires FiveUnder(sc, c', v, k) == FiveUnder(sc, c, v, k)
    ensures HeldUnder(sc, c', s', v, v, k) <==> HeldUnder(sc, c, s, v, v, k)
  {
    assert RawHeld(sc, c', s', k) <==> RawHeld(sc, c, s, k);
    assert forall n :: OwnValue(sc, c', v, k, n) == OwnValue(sc, c, v, k, n);
    assert OwnHeld(sc, c', s', v, k) <==> OwnHeld(sc, c, s, v, k);
    assert FiveHeld(sc, c', s', v, k) <==> FiveHeld(sc, c, s, v, k);
  }

  lemma SameListRead(sc: Schema, s: System, a: Action, v: Surroundings, k: Key)
    requires WellFormed(sc) && Unique(s.cache) && OffGraph(sc, s, a) && !Writes(a, k)
    ensures FiveUnder(sc, Written(s, a), v, k) == FiveUnder(sc, s.cache, v, k)
  {
    WrittenFind(s, a, k);
    if a.Put? { GraphInsert(sc, s.cache, v, a.e); } else { ListTasksDrop(sc, s.cache, v, a.key); }
    if Has(s.cache, k) {
      FiveLocal(Reading(sc, s.cache, v, k), TasksUnder(sc, Written(s, a), v), TasksUnder(sc, s.cache, v), v.terminal);
    }
  }

  /** Once the event of a write or deletion of anything but a task is resolved,
      the replica is right if and only if every other entity stays as it was
      under the surroundings the write leaves: for a task, the move of the
      terminal column spares it and the known tags give it the same filter. */
  lemma OffGraphWriteConverges(sc: Schema, s: System, a: Action)
    requires WellFormed(sc) && AtRest(sc, s) && OffGraph(sc, s, a)
    ensures var s', now := AfterWrite(sc, s, a), Now(sc, s);
            Converged(now, s'.cache, s'.store) <==>
            forall k :: Has(s.cache, k) && !Writes(a, k) ==>
              Stays(now, s.cache, s.store, Around(now, s.cache), Around(now, s'.cache), k)
  {
    var s', now := AfterWrite(sc, s, a), Now(sc, s);
    forall k ensures HeldFor(now, s'.cache, s'.store, k) <==>
      (Has(s.cache, k) && !Writes(a, k) ==> Stays(now, s.cache, s.store, Around(now, s.cache), Around(now, s'.cache), k))
    {
      if Writes(a, k) { WrittenHeld(sc, s, a, k); } else { OthersHeld(sc, s, a, k); }
    }
  }

  /** A change outside the cache, the clock for one, sends nothing: it leaves an
      entity right if and only if that stays as it was. */
  lemma OutsideChangeConverges(sc: Schema, s: System, x: nat, k: Key)
    requires WellFormed(sc) && AtRest(sc, s) && Has(s.cache, k)
    ensures var s' := Step(sc, s, Elsewhere(x));
            HeldFor(Now(sc, s'), s'.cache, s'.store, k) <==>
            Stays(sc, s.cache, s.store, Around(Now(sc, s), s.cache), Around(Now(sc, s'), s.cache), k)
  {
    var s' := Step(sc, s, Elsewhere(x));
    var u, v := Around(Now(sc, s), s.cache), Around(Now(sc, s'), s.cache);
    assert HeldFor(Now(sc, s), s.cache, s.store, k);
    HeldAnytime(sc, s.outside, s.cache, s.store, u, u, k);
    HeldAnytime(sc, x, s.cache, s.store, v, v, k);
    CopyStays(sc, s.cache, s.store, u, v, k);
  }

  // ---- two examples with columns --------------------------------------------------------------

  function ColumnAt(id: string, order: nat): Entity { Entity("column", id, map["order" := Num(order)]) }

  function TaskIn(id: string, column: string): Entity { Entity("task", id, map["position_column" := Str(column)]) }

  lemma SortTwo<T>(x: T, y: T, leq: (T, T) -> bool)
    ensures StableSort([x, y], leq) == if leq(x, y) then [x, y] else [y, x]
  {
    assert [y][1..] == [] && [x, y][1..] == [y];
    assert StableSort([], leq) == [];
    assert StableSort([y], leq) == [y];
    assert Place(x, [], leq) == [x];
    assert StableSort([x, y], leq) == Place(x, [y], leq);
  }

  lemma ColumnsListed(a: Entity, t: Entity, b: Entity)
    requires a.kind == "column" && t.kind == "task" && b.kind == "column"
    ensures ListColumns([a, t, b]) == [a, b] && ListColumns([a, t]) == [a]
  {
    assert |"task"| != |"column"|;
    assert [a, t, b][1..] == [t, b] && [t, b][1..] == [b] && [b][1..] == [] && [a, t][1..] == [t] && [t][1..] == [];
    assert ListColumns([b]) == [b] && ListColumns([t, b]) == [b] && ListColumns([t]) == [];
  }

  /** The later of two columns is the terminal one, and so is the only one. */
  lemma LaterOfTwo(m: nat, t: Entity, n: nat)
    requires t.kind == "task"
    ensures TerminalColumn([ColumnAt("a", m), t, ColumnAt("b", n)]) == if m <= n then "b" else "a"
    ensures TerminalColumn([ColumnAt("a", m), t]) == "a"
  {
    var a, b := ColumnAt("a", m), ColumnAt("b", n);
    ColumnsListed(a, t, b);
    assert ByOrder(a, b) <==> m <= n;
    SortTwo(a, b, ByOrder);
    SortTwo(a, a, ByOrder);
  }

  /** A task in column "a" does not stay when the terminal column moves to "a"
      or away from it. */
  lemma TaskNotSpared(sc: Schema, c: Cache, s: Store, u: Surroundings, v: Surroundings, k: Key)
    requires WellFormed(sc) && Find(c, k) == Some(TaskIn("t", "a")) && k == Key("task", "t")
    requires u.terminal != v.terminal && "a" in {u.terminal, v.terminal}
    ensures !Stays(sc, c, s, u, v, k)
  {
    var x := Reading(sc, c, u, k);
    TriggersUnderived(sc, TaskIn("t", "a"), u);
    assert NodeOf(TaskIn("t", "a")) == Node("t", Some("a"), []);
    assert TaskIsReady(x, TasksUnder(sc, c, u), u.terminal);
  }

  lemma ThreeEntries(a: Entity, t: Entity, b: Entity, b': Entity)
    requires a.kind == b.kind == b'.kind == "column" && t.kind == "task" && a.id != b.id && b'.id == b.id
    ensures Insert([a, t, b], b') == [a, t, b'] && Find([a, t, b], t.KeyOf()) == Some(t)
    ensures Drop([a, t, b], b.KeyOf()) == [a, t]
  {
    assert |"task"| != |"column"|;
    assert [a, t, b][1..] == [t, b] && [t, b][1..] == [b] && [b][1..] == [];
    assert Insert([b], b') == [b'] && Drop([b], b.KeyOf()) == [];
    assert Insert([t, b], b') == [t] + [b'] && Drop([t, b], b.KeyOf()) == [t] + [];
    assert Insert([a, t, b], b') == [a] + [t, b'] && Drop([a, t, b], b.KeyOf()) == [a] + [t];
    assert Find([t, b], t.KeyOf()) == Some(t);
  }

  /** A finished task stays announced as finished when another column is moved
      behind the one it sits in: fresh enrichment calls it ready again. */
  lemma ReorderedColumnGoesStale(sc: Schema, s: System, changes: seq<FieldChange>)
    requires WellFormed(sc) && AtRest(sc, s)
    requires s.cache == [ColumnAt("a", 1), TaskIn("t", "a"), ColumnAt("b", 0)]
    requires OffGraph(sc, s, Put(ColumnAt("b", 2), changes))
    ensures var s' := AfterWrite(sc, s, Put(ColumnAt("b", 2), changes));
            !Converged(Now(sc, s), s'.cache, s'.store)
  {
    var t, a, now := TaskIn("t", "a"), Put(ColumnAt("b", 2), changes), Now(sc, s);
    OffGraphStep(sc, s, a);
    LaterOfTwo(1, t, 0);
    LaterOfTwo(1, t, 2);
    ThreeEntries(ColumnAt("a", 1), t, ColumnAt("b", 0), ColumnAt("b", 2));
    assert Key("task", "t") == t.KeyOf() && |"task"| != |"column"|;
    TaskNotSpared(now, s.cache, s.store, Around(now, s.cache), Around(now, Written(s, a)), t.KeyOf());
    OthersHeld(sc, s, a, t.KeyOf());
  }

  /** A waiting task stays announced as ready when the column behind its own is
      deleted: fresh enrichment calls it finished. */
  lemma DeletedColumnGoesStale(sc: Schema, s: System)
    requires WellFormed(sc) && AtRest(sc, s)
    requires s.cache == [ColumnAt("a", 0), TaskIn("t", "a"), ColumnAt("b", 1)]
    ensures var s' := AfterWrite(sc, s, Remove(Key("column", "b")));
            !Converged(Now(sc, s), s'.cache, s'.store)
  {
    var t, a, now := TaskIn("t", "a"), Remove(Key("column", "b")), Now(sc, s);
    assert |"task"| != |"column"|;
    OffGraphStep(sc, s, a);
    LaterOfTwo(0, t, 1);
    ThreeEntries(ColumnAt("a", 0), t, ColumnAt("b", 1), ColumnAt("b", 1));
    assert Key("task", "t") == t.KeyOf() && Key("column", "b") == ColumnAt("b", 1).KeyOf();
    TaskNotSpared(now, s.cache, s.store, Around(now, s.cache), Around(now, Written(s, a)), t.KeyOf());
    OthersHeld(sc, s, a, t.KeyOf());
  }
}
