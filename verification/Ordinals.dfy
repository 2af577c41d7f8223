/** The migration of legacy task ordinals: regroup by column, sort stably by the
    old ordinal, and write a fresh increasing sequence. */
module Ordinals {
  import opened Json
  import opened EntityCache
  import opened TaskGraph
  import opened Sorting

  /** The fractional ordinals: a first one, the next after one, and which
      strings encode one. */
  datatype OrdinalScheme = OrdinalScheme(first: string, after: string -> string, valid: string -> bool)

  ghost predicate Lawful(os: OrdinalScheme) {
    && os.valid(os.first) && os.first != ""
    && forall o :: os.valid(o) ==> os.valid(os.after(o)) && Less(o, os.after(o))
  }

  const ORDINAL_FIELD := "position_ordinal"

  function OrdinalOr(e: Entity, absent: string): string {
    match GetStr(e.fields, ORDINAL_FIELD)
    case Some(o) => o
    case None => absent
  }

  /** The column a task is grouped under. */
  function GroupOf(e: Entity): string { ColumnOr(e, "todo") }

  function Within(col: string): Entity -> bool { (e: Entity) => GroupOf(e) == col }

  predicate ByOrdinal(a: Entity, b: Entity) { LessEq(OrdinalOr(a, ""), OrdinalOr(b, "")) }

  predicate NeedsMigration(os: OrdinalScheme, tasks: seq<Entity>) {
    exists i :: 0 <= i < |tasks| && OrdinalOr(tasks[i], "") != "" && !os.valid(OrdinalOr(tasks[i], ""))
  }

  /** The tasks of a column in the stable order of their ordinals. */
  function ColumnOrder(tasks: seq<Entity>, col: string): seq<Entity> {
    StableSort(Filter(tasks, Within(col)), ByOrdinal)
  }

  function Nth(os: OrdinalScheme, i: nat): string {
    if i == 0 then os.first else os.after(Nth(os, i - 1))
  }

  /** Position of the first entry with this id, or the length without one. */
  function IndexOf(s: seq<Entity>, id: string): nat
    ensures IndexOf(s, id) <= |s|
  {
    if s == [] || s[0].id == id then 0 else 1 + IndexOf(s[1..], id)
  }

  function WithOrdinal(e: Entity, o: string): Entity { e.(fields := e.fields[ORDINAL_FIELD := Str(o)]) }

  /** What the migration makes of one task of the list. */
  function Renumbered(os: OrdinalScheme, tasks: seq<Entity>, unwritable: set<string>): Entity -> Entity {
    (e: Entity) =>
      if e.id in unwritable then e
      else WithOrdinal(e, Nth(os, IndexOf(ColumnOrder(tasks, GroupOf(e)), e.id)))
  }

  function Migrated(os: OrdinalScheme, tasks: seq<Entity>, unwritable: set<string>): seq<Entity> {
    if NeedsMigration(os, tasks) then MapSeq(tasks, Renumbered(os, tasks, unwritable)) else tasks
  }

  // ---- the migration as the program runs it -----------------------------------------

  /** The stored task list; writes of `unwritable` ids fail. */
  class TaskTable {
    var tasks: seq<Entity>
    const unwritable: set<string>

    constructor (tasks: seq<Entity>, unwritable: set<string>)
      ensures this.tasks == tasks && this.unwritable == unwritable
    {
      this.tasks := tasks;
      this.unwritable := unwritable;
    }

    method Write(e: Entity) returns (ok: bool)
      modifies this
      ensures ok <==> e.id !in unwritable
      ensures tasks == if ok then Insert(old(tasks), e) else old(tasks)
    {
      ok := e.id !in unwritable;
      if ok {
        tasks := Insert(tasks, e);
      }
    }
  }

  ghost predicate TaskList(tasks: seq<Entity>) {
    UniqueIds(tasks) && forall i :: 0 <= i < |tasks| ==> tasks[i].kind == "task"
  }

  lemma {:induction false} InsertAt(c: seq<Entity>, m: nat, e: Entity)
    requires UniqueIds(c) && m < |c| && c[m].KeyOf() == e.KeyOf()
    ensures Insert(c, e) == c[m := e]
  {
    if m > 0 {
      assert c[0].id != c[m].id;
      assert c[1..][m - 1] == c[m];
      InsertAt(c[1..], m - 1, e);
    }
  }

  lemma {:induction false} IndexOfAt(s: seq<Entity>, i: nat)
    requires UniqueIds(s) && i < |s|
    ensures IndexOf(s, s[i].id) == i
  {
    if i > 0 {
      assert s[0].id != s[i].id;
      assert s[1..][i - 1] == s[i];
      IndexOfAt(s[1..], i - 1);
    }
  }

  lemma {:induction false} IndexOfFound(s: seq<Entity>, id: string)
    ensures IndexOf(s, id) < |s| <==> ListsId(s, id)
    ensures IndexOf(s, id) < |s| ==> s[IndexOf(s, id)].id == id
  {
    if s != [] && s[0].id != id {
      IndexOfFound(s[1..], id);
      if ListsId(s, id) {
        var i :| 0 <= i < |s| && s[i].id == id;
        assert s[1..][i - 1].id == id;
      }
      if ListsId(s[1..], id) {
        var i :| 0 <= i < |s[1..]| && s[1..][i].id == id;
        assert s[i + 1].id == id;
      }
    } else if s != [] {
      assert s[0].id == id;
    }
  }

  /** One task after the first `n` of a column have been rewritten. */
  function Rewritten(os: OrdinalScheme, e: Entity, column: seq<Entity>, n: nat, unwritable: set<string>): Entity
    requires n <= |column|
  {
    var i := IndexOf(column, e.id);
    if i < n && e.id !in unwritable then WithOrdinal(column[i], Nth(os, i)) else e
  }

  /** The list after the first `n` of a column have been rewritten. */
  ghost predicate RewrittenTo(os: OrdinalScheme, tasks: seq<Entity>, tasks': seq<Entity>, column: seq<Entity>,
                              n: nat, unwritable: set<string>) {
    n <= |column| && |tasks'| == |tasks| &&
    forall m :: 0 <= m < |tasks| ==> tasks'[m] == Rewritten(os, tasks[m], column, n, unwritable)
  }

  lemma RewrittenKey(os: OrdinalScheme, tasks: seq<Entity>, m: nat, column: seq<Entity>, n: nat, unwritable: set<string>)
    requires TaskList(tasks) && m < |tasks| && n <= |column| && forall e :: e in column ==> e in tasks
    ensures Rewritten(os, tasks[m], column, n, unwritable).KeyOf() == tasks[m].KeyOf()
  {
    var i := IndexOf(column, tasks[m].id);
    IndexOfFound(column, tasks[m].id);
    if i < n { assert column[i] in tasks; }
  }

  lemma RewriteStep(os: OrdinalScheme, tasks: seq<Entity>, before: seq<Entity>, column: seq<Entity>,
                    i: nat, unwritable: set<string>)
    requires TaskList(tasks) && UniqueIds(column) && forall e :: e in column ==> e in tasks
    requires i < |column| && RewrittenTo(os, tasks, before, column, i, unwritable)
    ensures var task := WithOrdinal(column[i], Nth(os, i));
            RewrittenTo(os, tasks, if task.id in unwritable then before else Insert(before, task), column, i + 1, unwritable)
  {
    var task := WithOrdinal(column[i], Nth(os, i));
    assert column[i] in tasks;
    var m0 :| 0 <= m0 < |tasks| && tasks[m0] == column[i];
    IndexOfAt(column, i);
    forall m | 0 <= m < |tasks| ensures before[m].KeyOf() == tasks[m].KeyOf() {
      RewrittenKey(os, tasks, m, column, i, unwritable);
    }
    forall m, n | 0 <= m < n < |before| ensures before[m].id != before[n].id {
      assert tasks[m].id != tasks[n].id;
    }
    InsertAt(before, m0, task);
    forall m | 0 <= m < |tasks| && m != m0 ensures IndexOf(column, tasks[m].id) != i {
      IndexOfFound(column, tasks[m].id);
      if m < m0 { assert tasks[m].id != tasks[m0].id; } else { assert tasks[m0].id != tasks[m].id; }
    }
  }

  /** `reassign_ordinals_in_column` */
  method ReassignOrdinalsInColumn(os: OrdinalScheme, table: TaskTable, column: seq<Entity>)
    requires TaskList(table.tasks) && UniqueIds(column) && forall e :: e in column ==> e in table.tasks
    modifies table
    ensures RewrittenTo(os, old(table.tasks), table.tasks, column, |column|, table.unwritable)
  {
    var ord := os.first;
    for i := 0 to |column|
      invariant ord == Nth(os, i)
      invariant RewrittenTo(os, old(table.tasks), table.tasks, column, i, table.unwritable)
    {
      RewriteStep(os, old(table.tasks), table.tasks, column, i, table.unwritable);
      var ok := table.Write(WithOrdinal(column[i], ord));
      ord := os.after(ord);
    }
  }

  ghost predicate ColumnsOf(groups: map<string, seq<Entity>>, tasks: seq<Entity>) {
    && (forall col :: col in groups ==> groups[col] == Filter(tasks, Within(col)))
    && (forall i :: 0 <= i < |tasks| ==> GroupOf(tasks[i]) in groups)
  }

  method GroupByColumn(tasks: seq<Entity>) returns (groups: map<string, seq<Entity>>)
    ensures ColumnsOf(groups, tasks)
  {
    groups := map[];
    for i := 0 to |tasks|
      invariant ColumnsOf(groups, tasks[..i])
    {
      var col := GroupOf(tasks[i]);
      ghost var before := groups;
      groups := groups[col := (if col in groups then groups[col] else []) + [tasks[i]]];
      assert tasks[..i + 1][..i] == tasks[..i];
      forall c | c in groups ensures groups[c] == Filter(tasks[..i + 1], Within(c)) {
        FilterLast(tasks[..i + 1], Within(c));
        if c !in before { FilterNone(tasks[..i], Within(c)); }
      }
      forall m | 0 <= m < i ensures GroupOf(tasks[m]) in groups {
        assert GroupOf(tasks[..i][m]) in before;
      }
    }
    assert tasks[..|tasks|] == tasks;
  }

  // ---- the sorted columns ------------------------------------------------------------

  lemma {:induction false} PlaceUnique(x: Entity, s: seq<Entity>, leq: (Entity, Entity) -> bool)
    requires UniqueIds(s) && forall y :: y in s ==> y.id != x.id
    ensures UniqueIds(Place(x, s, leq))
  {
    if s != [] && !leq(x, s[0]) {
      forall i, j | 0 <= i < j < |s[1..]| ensures s[1..][i].id != s[1..][j].id {
        assert s[i + 1].id != s[j + 1].id;
      }
      PlaceUnique(x, s[1..], leq);
      var p := Place(x, s[1..], leq);
      forall j | 0 <= j < |p| ensures p[j].id != s[0].id {
        PlaceMultiset(x, s[1..], leq);
        assert p[j] in multiset(p);
        if p[j] != x {
          assert p[j] in s[1..];
          var m :| 0 <= m < |s[1..]| && s[1..][m] == p[j];
          assert s[0].id != s[m + 1].id;
        }
      }
    }
  }

  lemma {:induction false} SortUnique(s: seq<Entity>, leq: (Entity, Entity) -> bool)
    requires UniqueIds(s)
    ensures UniqueIds(StableSort(s, leq))
  {
    if s != [] {
      forall i, j | 0 <= i < j < |s[1..]| ensures s[1..][i].id != s[1..][j].id {
        assert s[i + 1].id != s[j + 1].id;
      }
      SortUnique(s[1..], leq);
      SortMultiset(s[1..], leq);
      forall y | y in StableSort(s[1..], leq) ensures y.id != s[0].id {
        SameElements(StableSort(s[1..], leq), s[1..], y);
        var m :| 0 <= m < |s[1..]| && s[1..][m] == y;
        assert s[0].id != s[m + 1].id;
      }
      PlaceUnique(s[0], StableSort(s[1..], leq), leq);
    }
  }

  lemma {:induction false} FilterUnique(s: seq<Entity>, p: Entity -> bool)
    requires UniqueIds(s)
    ensures UniqueIds(Filter(s, p))
  {
    if s != [] {
      forall i, j | 0 <= i < j < |s[1..]| ensures s[1..][i].id != s[1..][j].id {
        assert s[i + 1].id != s[j + 1].id;
      }
      FilterUnique(s[1..], p);
      var f := Filter(s[1..], p);
      forall j | 0 <= j < |f| ensures f[j].id != s[0].id {
        FilterMembers(s[1..], p, f[j]);
        var m :| 0 <= m < |s[1..]| && s[1..][m] == f[j];
        assert s[0].id != s[m + 1].id;
      }
    }
  }

  lemma ColumnOrderFacts(tasks: seq<Entity>, col: string)
    requires UniqueIds(tasks)
    ensures UniqueIds(ColumnOrder(tasks, col))
    ensures forall e :: e in ColumnOrder(tasks, col) <==> e in tasks && GroupOf(e) == col
    ensures multiset(ColumnOrder(tasks, col)) == multiset(Filter(tasks, Within(col)))
  {
    var f := Filter(tasks, Within(col));
    FilterUnique(tasks, Within(col));
    SortUnique(f, ByOrdinal);
    SortMultiset(f, ByOrdinal);
    forall e ensures e in ColumnOrder(tasks, col) <==> e in tasks && GroupOf(e) == col {
      SameElements(StableSort(f, ByOrdinal), f, e);
      FilterMembers(tasks, Within(col), e);
    }
  }

  lemma ElsewhereUnlisted(tasks: seq<Entity>, m: nat, col: string)
    requires UniqueIds(tasks) && m < |tasks| && GroupOf(tasks[m]) != col
    ensures !ListsId(ColumnOrder(tasks, col), tasks[m].id)
  {
    var column := ColumnOrder(tasks, col);
    ColumnOrderFacts(tasks, col);
    forall i | 0 <= i < |column| ensures column[i].id != tasks[m].id {
      assert column[i] in tasks;
      var n :| 0 <= n < |tasks| && tasks[n] == column[i];
      if n < m { assert tasks[n].id != tasks[m].id; } else { assert m < n; }
    }
  }

  /** Rewriting one column turns its tasks into their renumbered form. */
  lemma RewrittenColumn(os: OrdinalScheme, tasks: seq<Entity>, m: nat, now: Entity, col: string, unwritable: set<string>)
    requires TaskList(tasks) && m < |tasks| && now.id == tasks[m].id
    requires GroupOf(tasks[m]) == col ==> now == tasks[m]
    ensures var column := ColumnOrder(tasks, col);
            Rewritten(os, now, column, |column|, unwritable) ==
            if GroupOf(tasks[m]) == col then Renumbered(os, tasks, unwritable)(tasks[m]) else now
  {
    var column := ColumnOrder(tasks, col);
    ColumnOrderFacts(tasks, col);
    IndexOfFound(column, now.id);
    var i := IndexOf(column, now.id);
    if GroupOf(tasks[m]) == col {
      assert tasks[m] in column;
      var j :| 0 <= j < |column| && column[j] == tasks[m];
      IndexOfAt(column, j);
    } else {
      ElsewhereUnlisted(tasks, m, col);
    }
  }

  lemma RenumberedKey(os: OrdinalScheme, tasks: seq<Entity>, unwritable: set<string>, e: Entity)
    ensures var r := Renumbered(os, tasks, unwritable)(e);
            r.id == e.id && r.kind == e.kind && ColumnOr(r, "todo") == ColumnOr(e, "todo") && Column(r) == Column(e)
  {
    assert |"position_ordinal"| != |"position_column"|;
  }

  /** The list when the columns in `todo` still wait. */
  ghost predicate Progress(os: OrdinalScheme, tasks: seq<Entity>, now: seq<Entity>, todo: set<string>, unwritable: set<string>) {
    |now| == |tasks| &&
    forall m :: 0 <= m < |tasks| ==>
      now[m] == if GroupOf(tasks[m]) in todo then tasks[m] else Renumbered(os, tasks, unwritable)(tasks[m])
  }

  lemma ProgressStep(os: OrdinalScheme, tasks: seq<Entity>, now: seq<Entity>, next: seq<Entity>, todo: set<string>,
                     col: string, unwritable: set<string>)
    requires TaskList(tasks) && Progress(os, tasks, now, todo, unwritable) && col in todo
    requires RewrittenTo(os, now, next, ColumnOrder(tasks, col), |ColumnOrder(tasks, col)|, unwritable)
    ensures Progress(os, tasks, next, todo - {col}, unwritable)
  {
    forall m | 0 <= m < |tasks|
      ensures next[m] == if GroupOf(tasks[m]) in todo - {col} then tasks[m] else Renumbered(os, tasks, unwritable)(tasks[m])
    {
      RenumberedKey(os, tasks, unwritable, tasks[m]);
      RewrittenColumn(os, tasks, m, now[m], col, unwritable);
    }
  }

  lemma ProgressReady(os: OrdinalScheme, tasks: seq<Entity>, now: seq<Entity>, todo: set<string>, col: string,
                      unwritable: set<string>)
    requires TaskList(tasks) && Progress(os, tasks, now, todo, unwritable) && col in todo
    ensures TaskList(now) && UniqueIds(ColumnOrder(tasks, col))
    ensures forall e :: e in ColumnOrder(tasks, col) ==> e in now
  {
    ColumnOrderFacts(tasks, col);
    forall m | 0 <= m < |tasks| ensures now[m].id == tasks[m].id && now[m].kind == tasks[m].kind {
      RenumberedKey(os, tasks, unwritable, tasks[m]);
    }
    forall e | e in ColumnOrder(tasks, col) ensures e in now {
      var m :| 0 <= m < |tasks| && tasks[m] == e;
      assert now[m] == e;
    }
  }

  /** `migrate_legacy_ordinals` */
  method MigrateLegacyOrdinals(os: OrdinalScheme, table: TaskTable)
    requires TaskList(table.tasks)
    modifies table
    ensures table.tasks == Migrated(os, old(table.tasks), table.unwritable)
  {
    var tasks := table.tasks;
    if !NeedsMigration(os, tasks) {
      return;
    }
    var byColumn := GroupByColumn(tasks);
    var todo := byColumn.Keys;
    while todo != {}
      invariant todo <= byColumn.Keys
      invariant Progress(os, tasks, table.tasks, todo, table.unwritable)
      decreases todo
    {
      var col :| col in todo;
      var column := StableSort(byColumn[col], ByOrdinal);
      assert column == ColumnOrder(tasks, col);
      ProgressReady(os, tasks, table.tasks, todo, col, table.unwritable);
      ghost var before := table.tasks;
      ReassignOrdinalsInColumn(os, table, column);
      ProgressStep(os, tasks, before, table.tasks, todo, col, table.unwritable);
      todo := todo - {col};
    }
    assert table.tasks == MapSeq(tasks, Renumbered(os, tasks, table.unwritable));
  }
}
