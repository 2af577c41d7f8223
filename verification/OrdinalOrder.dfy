/** What the ordinal migration keeps: every task, its column, its place among its
    neighbours and the order the board displays. */
module OrdinalOrder {
  import opened Json
  import opened EntityCache
  import opened TaskGraph
  import opened Sorting
  import opened Ordinals
  import opened FiveMeaning

  lemma {:induction false} NthValid(os: OrdinalScheme, i: nat)
    requires Lawful(os)
    ensures os.valid(Nth(os, i)) && Nth(os, i) != ""
  {
    if i > 0 {
      NthValid(os, i - 1);
      assert Less(Nth(os, i - 1), os.after(Nth(os, i - 1)));
    }
  }

  lemma {:induction false} NthIncreases(os: OrdinalScheme, i: nat, j: nat)
    requires Lawful(os) && i < j
    ensures Less(Nth(os, i), Nth(os, j))
  {
    NthValid(os, j - 1);
    assert Less(Nth(os, j - 1), Nth(os, j));
    if i < j - 1 {
      NthIncreases(os, i, j - 1);
      LessEqTransitive(Nth(os, i), Nth(os, j - 1), Nth(os, j));
      LessEqTotal(Nth(os, i), Nth(os, j - 1));
      LessEqTotal(Nth(os, j - 1), Nth(os, j));
    }
  }

  lemma ByOrdinalOrdering()
    ensures Ordering(ByOrdinal)
  {
    forall x, y ensures ByOrdinal(x, y) || ByOrdinal(y, x) { LessEqTotal(OrdinalOr(x, ""), OrdinalOr(y, "")); }
    forall x, y, z | ByOrdinal(x, y) && ByOrdinal(y, z) ensures ByOrdinal(x, z) {
      LessEqTransitive(OrdinalOr(x, ""), OrdinalOr(y, ""), OrdinalOr(z, ""));
    }
  }

  /** No task is lost, added or moved, and nothing but its ordinal changes. */
  lemma MigrationKeepsTasks(os: OrdinalScheme, tasks: seq<Entity>, unwritable: set<string>, i: nat, f: string)
    requires i < |tasks|
    ensures var tasks' := Migrated(os, tasks, unwritable);
            && |tasks'| == |tasks|
            && tasks'[i].KeyOf() == tasks[i].KeyOf() && GroupOf(tasks'[i]) == GroupOf(tasks[i])
            && (f != ORDINAL_FIELD || tasks[i].id in unwritable ==>
                  (f in tasks'[i].fields <==> f in tasks[i].fields) && At(tasks'[i].fields, f) == At(tasks[i].fields, f))
  {
    RenumberedKey(os, tasks, unwritable, tasks[i]);
  }

  lemma RenumberedAt(os: OrdinalScheme, tasks: seq<Entity>, col: string, i: nat)
    requires TaskList(tasks) && i < |ColumnOrder(tasks, col)|
    ensures var r := Renumbered(os, tasks, {})(ColumnOrder(tasks, col)[i]);
            OrdinalOr(r, "") == Nth(os, i) && GetStr(r.fields, ORDINAL_FIELD) == Some(Nth(os, i))
  {
    var column := ColumnOrder(tasks, col);
    ColumnOrderFacts(tasks, col);
    assert column[i] in column;
    IndexOfAt(column, i);
  }

  lemma RenumberedPair(os: OrdinalScheme, tasks: seq<Entity>, col: string, i: nat, j: nat)
    requires Lawful(os) && TaskList(tasks) && i < j < |ColumnOrder(tasks, col)|
    ensures var f, column := Renumbered(os, tasks, {}), ColumnOrder(tasks, col);
            && ByOrdinal(f(column[i]), f(column[j])) && !ByOrdinal(f(column[j]), f(column[i]))
            && Less(OrdinalOr(f(column[i]), ""), OrdinalOr(f(column[j]), ""))
  {
    RenumberedAt(os, tasks, col, i);
    RenumberedAt(os, tasks, col, j);
    NthIncreases(os, i, j);
    LessEqTotal(Nth(os, i), Nth(os, j));
  }

  lemma RenumberedSorted(os: OrdinalScheme, tasks: seq<Entity>, col: string)
    requires Lawful(os) && TaskList(tasks)
    ensures StrictlySorted(MapSeq(ColumnOrder(tasks, col), Renumbered(os, tasks, {})), ByOrdinal)
  {
    var n := |ColumnOrder(tasks, col)|;
    forall i, j | 0 <= i < j < n
      ensures var f, column := Renumbered(os, tasks, {}), ColumnOrder(tasks, col);
              ByOrdinal(f(column[i]), f(column[j])) && !ByOrdinal(f(column[j]), f(column[i]))
    {
      RenumberedPair(os, tasks, col, i, j);
    }
  }

  lemma RenumberedFilter(os: OrdinalScheme, tasks: seq<Entity>, col: string)
    ensures Filter(MapSeq(tasks, Renumbered(os, tasks, {})), Within(col))
         == MapSeq(Filter(tasks, Within(col)), Renumbered(os, tasks, {}))
  {
    var f := Renumbered(os, tasks, {});
    forall e ensures Within(col)(f(e)) == Within(col)(e) { RenumberedKey(os, tasks, {}, e); }
    FilterMap(tasks, Within(col), f);
  }

  /** A strictly sorted arrangement of some elements is what sorting them gives. */
  lemma SortIs(s: seq<Entity>, sorted: seq<Entity>, le: (Entity, Entity) -> bool)
    requires Ordering(le) && StrictlySorted(sorted, le) && multiset(s) == multiset(sorted)
    ensures StableSort(s, le) == sorted
  {
    SortSorted(s, le);
    SortMultiset(s, le);
    SortedUnique(sorted, StableSort(s, le), le);
  }

  /** Sorting the renumbered column gives the old order, renumbered. */
  lemma RenumberedColumn(os: OrdinalScheme, tasks: seq<Entity>, col: string)
    requires Lawful(os) && TaskList(tasks)
    ensures var f := Renumbered(os, tasks, {});
            ColumnOrder(MapSeq(tasks, f), col) == MapSeq(ColumnOrder(tasks, col), f)
  {
    var f, kept := Renumbered(os, tasks, {}), Filter(tasks, Within(col));
    RenumberedFilter(os, tasks, col);
    ColumnOrderFacts(tasks, col);
    MapMultiset(ColumnOrder(tasks, col), kept, f);
    RenumberedSorted(os, tasks, col);
    ByOrdinalOrdering();
    SortIs(MapSeq(kept, f), MapSeq(ColumnOrder(tasks, col), f), ByOrdinal);
  }

  /** After a migration each column lists the same tasks in the same order as
      the old ordinals did, now with strictly increasing valid ordinals. */
  lemma ColumnOrderKept(os: OrdinalScheme, tasks: seq<Entity>, col: string)
    requires Lawful(os) && TaskList(tasks) && NeedsMigration(os, tasks)
    ensures var before, after := ColumnOrder(tasks, col), ColumnOrder(Migrated(os, tasks, {}), col);
            && |after| == |before|
            && (forall i :: 0 <= i < |after| ==> after[i].id == before[i].id && OrdinalOr(after[i], "") == Nth(os, i))
            && (forall i :: 0 <= i < |after| ==> os.valid(OrdinalOr(after[i], "")))
            && (forall i, j :: 0 <= i < j < |after| ==> Less(OrdinalOr(after[i], ""), OrdinalOr(after[j], "")))
  {
    RenumberedColumn(os, tasks, col);
    var f, column := Renumbered(os, tasks, {}), ColumnOrder(tasks, col);
    forall i | 0 <= i < |column|
      ensures f(column[i]).id == column[i].id && OrdinalOr(f(column[i]), "") == Nth(os, i) && os.valid(Nth(os, i))
    {
      RenumberedKey(os, tasks, {}, column[i]);
      RenumberedAt(os, tasks, col, i);
      NthValid(os, i);
    }
    forall i, j | 0 <= i < j < |column| ensures Less(OrdinalOr(f(column[i]), ""), OrdinalOr(f(column[j]), "")) {
      RenumberedPair(os, tasks, col, i, j);
    }
  }

  // ---- what the orders mean -------------------------------------------------------------

  ghost predicate HasOrdinal(e: Entity, o: string) {
    "position_ordinal" in e.fields && e.fields["position_ordinal"] == Str(o)
  }

  /** `leq` orders tasks by their ordinals, a missing one counting as `absent`. */
  ghost predicate ByStoredOrdinal(leq: (Entity, Entity) -> bool, absent: string) {
    forall a, b, x, y ::
      (HasOrdinal(a, x) || (x == absent && forall o :: !HasOrdinal(a, o))) &&
      (HasOrdinal(b, y) || (y == absent && forall o :: !HasOrdinal(b, o))) ==>
        (leq(a, b) <==> LessEq(x, y))
  }

  lemma StoredOrdinal(leq: (Entity, Entity) -> bool, absent: string, a: Entity, b: Entity)
    requires ByStoredOrdinal(leq, absent)
    ensures leq(a, b) <==> LessEq(OrdinalOr(a, absent), OrdinalOr(b, absent))
  {
    OrdinalStored(a, absent);
    OrdinalStored(b, absent);
  }

  lemma OrdinalStored(e: Entity, absent: string)
    ensures HasOrdinal(e, OrdinalOr(e, absent)) || (OrdinalOr(e, absent) == absent && forall o :: !HasOrdinal(e, o))
  {
    if o :| HasOrdinal(e, o) { assert OrdinalOr(e, absent) == o; }
  }

  lemma {:induction false} PlaceAlike<T(!new)>(x: T, s: seq<T>, p: (T, T) -> bool, q: (T, T) -> bool)
    requires forall a, b :: p(a, b) == q(a, b)
    ensures Place(x, s, p) == Place(x, s, q)
  {
    if s != [] { PlaceAlike(x, s[1..], p, q); }
  }

  lemma {:induction false} SortAlike<T(!new)>(s: seq<T>, p: (T, T) -> bool, q: (T, T) -> bool)
    requires forall a, b :: p(a, b) == q(a, b)
    ensures StableSort(s, p) == StableSort(s, q)
  {
    if s != [] {
      SortAlike(s[1..], p, q);
      PlaceAlike(s[0], StableSort(s[1..], p), p, q);
    }
  }

  /** A column's order is the stable sort, by stored ordinal, of the tasks that sit
      in it, those without a column sitting in `todo` and those without an ordinal
      coming first. */
  lemma ColumnOrderMeans(tasks: seq<Entity>, col: string, leq: (Entity, Entity) -> bool)
    requires ByStoredOrdinal(leq, "")
    ensures ColumnOrder(tasks, col) == StableSort(Filter(tasks, (e: Entity) => Sits(e, col)), leq)
  {
    forall e: Entity ensures Within(col)(e) <==> Sits(e, col) { SitsMeans(e, col); }
    FilterAlike(tasks, Within(col), (e: Entity) => Sits(e, col));
    forall a: Entity, b: Entity ensures ByOrdinal(a, b) == leq(a, b) { StoredOrdinal(leq, "", a, b); }
    SortAlike(Filter(tasks, Within(col)), ByOrdinal, leq);
  }

  /** The task holds an ordinal that the scheme does not encode. */
  ghost predicate BadOrdinal(os: OrdinalScheme, e: Entity) {
    ORDINAL_FIELD in e.fields && e.fields[ORDINAL_FIELD].Str? && e.fields[ORDINAL_FIELD].s != "" &&
    !os.valid(e.fields[ORDINAL_FIELD].s)
  }

  lemma NeedsMeans(os: OrdinalScheme, tasks: seq<Entity>)
    ensures NeedsMigration(os, tasks) <==> exists i :: 0 <= i < |tasks| && BadOrdinal(os, tasks[i])
  {
    if i :| 0 <= i < |tasks| && BadOrdinal(os, tasks[i]) { assert OrdinalOr(tasks[i], "") != ""; }
    if i :| 0 <= i < |tasks| && OrdinalOr(tasks[i], "") != "" && !os.valid(OrdinalOr(tasks[i], "")) {
      assert BadOrdinal(os, tasks[i]);
    }
  }

  /** The migration runs exactly when some task holds an invalid ordinal, and
      leaves work for a second one exactly when such an ordinal sits on a task
      whose write failed. */
  lemma StillNeedsMigration(os: OrdinalScheme, tasks: seq<Entity>, unwritable: set<string>)
    requires Lawful(os) && TaskList(tasks)
    ensures NeedsMigration(os, tasks) <==> exists i :: 0 <= i < |tasks| && BadOrdinal(os, tasks[i])
    ensures NeedsMigration(os, Migrated(os, tasks, unwritable)) <==>
            exists i :: 0 <= i < |tasks| && tasks[i].id in unwritable && BadOrdinal(os, tasks[i])
  {
    var tasks' := Migrated(os, tasks, unwritable);
    NeedsMeans(os, tasks);
    NeedsMeans(os, tasks');
    if NeedsMigration(os, tasks) {
      forall i | 0 <= i < |tasks|
        ensures BadOrdinal(os, tasks'[i]) <==> tasks[i].id in unwritable && BadOrdinal(os, tasks[i])
      {
        if tasks[i].id !in unwritable {
          NthValid(os, IndexOf(ColumnOrder(tasks, GroupOf(tasks[i])), tasks[i].id));
        }
      }
      if i :| 0 <= i < |tasks| && tasks[i].id in unwritable && BadOrdinal(os, tasks[i]) {
        assert BadOrdinal(os, tasks'[i]);
      }
    }
  }

  /** With every write succeeding, a second migration changes nothing. */
  lemma SecondMigrationIsNoOp(os: OrdinalScheme, tasks: seq<Entity>)
    requires Lawful(os) && TaskList(tasks)
    ensures var once := Migrated(os, tasks, {});
            Migrated(os, once, {}) == once
  {
    StillNeedsMigration(os, tasks, {});
  }

  // ---- the displayed order ------------------------------------------------------------

  /** The board's display order: by column, then by ordinal. */
  predicate ByPosition(a: Entity, b: Entity) {
    if ColumnOr(a, "") == ColumnOr(b, "") then LessEq(OrdinalOr(a, "a0"), OrdinalOr(b, "a0"))
    else LessEq(ColumnOr(a, ""), ColumnOr(b, ""))
  }

  function DisplayOrder(tasks: seq<Entity>): seq<Entity> { StableSort(tasks, ByPosition) }

  /** Tasks of one column are displayed by stored ordinal, a missing one counting as
      `a0`; tasks of different columns by column. */
  lemma DisplayMeans(leq: (Entity, Entity) -> bool, a: Entity, b: Entity, col: string, other: string)
    requires ByStoredOrdinal(leq, "a0") && InColumn(a, col)
    ensures InColumn(b, col) ==> (ByPosition(a, b) <==> leq(a, b))
    ensures InColumn(b, other) && other != col ==> (ByPosition(a, b) <==> LessEq(col, other))
    ensures (forall c :: !InColumn(b, c)) && col != "" ==> (ByPosition(a, b) <==> LessEq(col, ""))
  {
    StoredOrdinal(leq, "a0", a, b);
    if Column(b).Some? { assert InColumn(b, Column(b).value); }
  }

  ghost predicate Placed(e: Entity) {
    && "position_column" in e.fields && e.fields["position_column"].Str?
    && ORDINAL_FIELD in e.fields && e.fields[ORDINAL_FIELD].Str?
  }

  ghost function PlacedWithin(col: string): Entity -> bool { (e: Entity) => Placed(e) && GroupOf(e) == col }

  lemma ByPositionOrdering()
    ensures Ordering(ByPosition)
  {
    forall x, y ensures ByPosition(x, y) || ByPosition(y, x) {
      LessEqTotal(OrdinalOr(x, "a0"), OrdinalOr(y, "a0"));
      LessEqTotal(ColumnOr(x, ""), ColumnOr(y, ""));
    }
    forall x, y, z | ByPosition(x, y) && ByPosition(y, z) ensures ByPosition(x, z) {
      var a, b, c := ColumnOr(x, ""), ColumnOr(y, ""), ColumnOr(z, "");
      if a == b == c {
        LessEqTransitive(OrdinalOr(x, "a0"), OrdinalOr(y, "a0"), OrdinalOr(z, "a0"));
      } else if a != b && b != c {
        LessEqTransitive(a, b, c);
        LessEqTotal(a, b);
      }
    }
  }

  /** Among placed tasks the displayed order of a column is its ordinal order. */
  lemma DisplayedColumn(tasks: seq<Entity>, col: string)
    requires forall e :: e in tasks ==> Placed(e)
    ensures Filter(DisplayOrder(tasks), PlacedWithin(col)) == ColumnOrder(tasks, col)
  {
    ByPositionOrdering();
    FilterSort(tasks, PlacedWithin(col), ByPosition, ByOrdinal);
    FilterAlike(tasks, PlacedWithin(col), Within(col));
  }

  lemma DisplayedPairKept(os: OrdinalScheme, tasks: seq<Entity>, i: nat, j: nat)
    requires Lawful(os) && TaskList(tasks) && (forall e :: e in tasks ==> Placed(e))
    requires i < j < |DisplayOrder(tasks)|
    ensures var f, shown := Renumbered(os, tasks, {}), DisplayOrder(tasks);
            ByPosition(f(shown[i]), f(shown[j])) && !ByPosition(f(shown[j]), f(shown[i]))
  {
    var f, shown := Renumbered(os, tasks, {}), DisplayOrder(tasks);
    var a, b := shown[i], shown[j];
    ByPositionOrdering();
    SortSorted(tasks, ByPosition);
    SortMultiset(tasks, ByPosition);
    SameElements(shown, tasks, a);
    SameElements(shown, tasks, b);
    RenumberedKey(os, tasks, {}, a);
    RenumberedKey(os, tasks, {}, b);
    if Column(a) == Column(b) {
      var col := GroupOf(a);
      DisplayedColumn(tasks, col);
      var m, n := FilterOrder(shown, PlacedWithin(col), i, j);
      RenumberedAt(os, tasks, col, m);
      RenumberedAt(os, tasks, col, n);
      NthIncreases(os, m, n);
      LessEqTotal(Nth(os, m), Nth(os, n));
    } else {
      LessEqTotal(ColumnOr(a, ""), ColumnOr(b, ""));
    }
  }

  /** Where every task had a column and an ordinal, the displayed order is the
      same sequence of tasks before and after. */
  lemma DisplayOrderKept(os: OrdinalScheme, tasks: seq<Entity>)
    requires Lawful(os) && TaskList(tasks) && (forall e :: e in tasks ==> Placed(e))
    ensures var before, after := DisplayOrder(tasks), DisplayOrder(Migrated(os, tasks, {}));
            |after| == |before| && forall i :: 0 <= i < |after| ==> after[i].id == before[i].id
  {
    if NeedsMigration(os, tasks) {
      var f, shown := Renumbered(os, tasks, {}), DisplayOrder(tasks);
      var renumbered := MapSeq(shown, f);
      forall i, j | 0 <= i < j < |renumbered| ensures ByPosition(renumbered[i], renumbered[j]) && !ByPosition(renumbered[j], renumbered[i]) {
        DisplayedPairKept(os, tasks, i, j);
      }
      SortMultiset(tasks, ByPosition);
      MapMultiset(shown, tasks, f);
      ByPositionOrdering();
      SortIs(MapSeq(tasks, f), renumbered, ByPosition);
      forall e ensures f(e).id == e.id { RenumberedKey(os, tasks, {}, e); }
    }
  }
}
