/** What a read finds around an entity, in terms of what the cache stores: the
    names of the tags, the outer columns, and the two counts. */
module BoardReading {
  import opened Json
  import opened EntityCache
  import opened TaskGraph
  import opened Sorting
  import opened Watcher
  import opened Registry
  import opened FiveMeaning

  ghost predicate HasOrder(e: Entity, n: nat) {
    "order" in e.fields && e.fields["order"] == Num(n)
  }

  /** `n` is the entity's order, or `absent` when it stores none. */
  ghost predicate Order(e: Entity, absent: nat, n: nat) {
    HasOrder(e, n) || (n == absent && forall m: nat :: !HasOrder(e, m))
  }

  lemma OrderMeans(e: Entity)
    ensures OrderOf(e) >= 0 && Order(e, 0, OrderOf(e))
    ensures StartOrder(e) >= 0 && Order(e, U64_MAX, StartOrder(e))
    ensures forall n: nat :: Order(e, 0, n) ==> n == OrderOf(e)
    ensures forall n: nat :: Order(e, U64_MAX, n) ==> n == StartOrder(e)
  {
    assert HasOrder(e, OrderOf(e)) || forall m: nat :: !HasOrder(e, m);
  }

  function OfKind(kind: string): Entity -> bool { (e: Entity) => e.kind == kind }

  lemma {:induction false} ColumnsFiltered(c: Cache)
    ensures ListColumns(c) == Filter(c, OfKind("column"))
  {
    if c != [] { ColumnsFiltered(c[1..]); }
  }

  /** The last element of the sorted list is the last of the greatest. */
  lemma {:induction false} SortLast<T(!new)>(s: seq<T>, leq: (T, T) -> bool) returns (i: nat)
    requires s != [] && Ordering(leq)
    ensures i < |s| == |StableSort(s, leq)| && StableSort(s, leq)[|s| - 1] == s[i]
    ensures forall j :: 0 <= j < |s| ==> leq(s[j], s[i]) && (j > i ==> !leq(s[i], s[j]))
  {
    SortSameLength(s, leq);
    if |s| == 1 {
      assert s[1..] == [] && StableSort(s[1..], leq) == [];
      i := 0;
    } else {
      var t := StableSort(s[1..], leq);
      var m := SortLast(s[1..], leq);
      SortSorted(s[1..], leq);
      PlaceLast(s[0], t, leq);
      i := if leq(s[0], s[1 + m]) then 1 + m else 0;
      GreatestOf(s, m, i, leq);
    }
  }

  lemma GreatestOf<T(!new)>(s: seq<T>, m: nat, i: nat, leq: (T, T) -> bool)
    requires Ordering(leq) && 1 + m < |s| && i == if leq(s[0], s[1 + m]) then 1 + m else 0
    requires forall j :: 0 <= j < |s[1..]| ==> leq(s[1..][j], s[1..][m]) && (j > m ==> !leq(s[1..][m], s[1..][j]))
    ensures forall j :: 0 <= j < |s| ==> leq(s[j], s[i]) && (j > i ==> !leq(s[i], s[j]))
  {
    forall j | 0 <= j < |s| ensures leq(s[j], s[i]) && (j > i ==> !leq(s[i], s[j])) {
      if j > 0 { assert s[j] == s[1..][j - 1]; }
    }
  }

  lemma SortSameLength<T(!new)>(s: seq<T>, leq: (T, T) -> bool)
    ensures |StableSort(s, leq)| == |s|
  {
    SortMultiset(s, leq);
    assert |multiset(StableSort(s, leq))| == |multiset(s)|;
  }

  lemma {:induction false} PlaceLast<T(!new)>(x: T, t: seq<T>, leq: (T, T) -> bool)
    requires t != [] && Ordering(leq) && Sorted(t, leq)
    ensures |Place(x, t, leq)| == |t| + 1
    ensures Place(x, t, leq)[|t|] == if leq(x, t[|t| - 1]) then t[|t| - 1] else x
  {
    if leq(x, t[0]) {
      assert |t| > 1 ==> leq(t[0], t[|t| - 1]);
    } else if |t| == 1 {
      assert t[1..] == [] && Place(x, t[1..], leq) == [x];
    } else {
      PlaceLast(x, t[1..], leq);
    }
  }

  lemma ByOrderOrdering()
    ensures Ordering(ByOrder)
  {
  }

  /** The terminal column is the one of the greatest order, the last of several,
      an absent order counting as 0; without columns it is `done`. */
  lemma TerminalMeans(c: Cache, i: nat, o: Entity -> nat)
    requires forall e :: Order(e, 0, o(e))
    ensures var columns := Filter(c, OfKind("column"));
            && (columns == [] ==> TerminalColumn(c) == "done")
            && (i < |columns| && (forall j :: 0 <= j < |columns| ==>
                                    o(columns[j]) < o(columns[i]) || (o(columns[j]) == o(columns[i]) && j <= i)) ==>
                  TerminalColumn(c) == columns[i].id)
  {
    var columns := Filter(c, OfKind("column"));
    ColumnsFiltered(c);
    forall e ensures o(e) == OrderOf(e) { OrderMeans(e); }
    if columns != [] {
      ByOrderOrdering();
      var m := SortLast(columns, ByOrder);
      if i < |columns| { assert ByOrder(columns[i], columns[m]); }
    }
  }

  lemma {:induction false} LowestIs(columns: seq<Entity>) returns (i: nat)
    requires columns != []
    ensures i < |columns| && Lowest(columns) == Some(columns[i])
    ensures forall j :: 0 <= j < |columns| ==>
              StartOrder(columns[i]) < StartOrder(columns[j]) || (StartOrder(columns[i]) == StartOrder(columns[j]) && j <= i)
  {
    var n := |columns| - 1;
    i := n;
    if n > 0 {
      var m := LowestIs(columns[..n]);
      if StartOrder(columns[m]) < StartOrder(columns[n]) { i := m; }
    }
  }

  /** The first column is the one of the least order, the last of several, an
      absent order coming last; without columns it is `todo`. */
  lemma FirstMeans(c: Cache, i: nat, o: Entity -> nat)
    requires forall e :: Order(e, U64_MAX, o(e))
    ensures var columns := Filter(c, OfKind("column"));
            && (columns == [] ==> FirstColumn(c) == "todo")
            && (i < |columns| && (forall j :: 0 <= j < |columns| ==>
                                    o(columns[i]) < o(columns[j]) || (o(columns[j]) == o(columns[i]) && j <= i)) ==>
                  FirstColumn(c) == columns[i].id)
  {
    var columns := Filter(c, OfKind("column"));
    ColumnsFiltered(c);
    forall e ensures o(e) == StartOrder(e) { OrderMeans(e); }
    if columns != [] {
      var m := LowestIs(columns);
    }
  }

  lemma TagNamesMean(c: Cache, name: string)
    ensures name in TagNames(c) <==>
            exists e :: e in c && e.kind == "tag" && "tag_name" in e.fields && e.fields["tag_name"] == Str(name)
  {
    if e :| e in c && e.kind == "tag" && "tag_name" in e.fields && e.fields["tag_name"] == Str(name) {
      assert GetStr(e.fields, "tag_name") == Some(name);
    }
  }

  lemma {:induction false} CountsMean(c: Cache, column: string)
    ensures TaskCount(c) == |Filter(c, OfKind("task"))|
    ensures TasksIn(c, column) == |Filter(c, (e: Entity) => e.kind == "task" && Sits(e, column))|
  {
    if c != [] {
      CountsMean(c[1..], column);
      SitsMeans(c[0], column);
    }
  }

  /** The board's completion: the tasks in the terminal column, all tasks, and
      their share in per cent, rounded to the nearest, a half up. */
  lemma CompletionMeans(r: Rules, outside: nat, c: Cache, f: Fields)
    ensures var sc := KanbanSchema(r, outside);
            var done := |Filter(c, (e: Entity) => e.kind == "task" && Sits(e, TerminalColumn(c)))|;
            var total := |Filter(c, OfKind("task"))|;
            exists percent: nat ::
              && At(sc.derive("board", f, Around(sc, c)), "percent_complete") ==
                 Obj(map["done" := Num(done), "total" := Num(total), "percent" := Num(percent)])
              && (if total == 0 then percent == 0 else 2 * total * percent <= 200 * done + total < 2 * total * (percent + 1))
  {
    var sc := KanbanSchema(r, outside);
    var v := Around(sc, c);
    CountsMean(c, TerminalColumn(c));
    PercentRounds(v.done, v.total);
    assert |"board"| != |"task"|;
    assert At(sc.derive("board", f, v), "percent_complete") == PercentComplete(v.done, v.total);
    assert At(sc.derive("board", f, v), "percent_complete") ==
           Obj(map["done" := Num(v.done), "total" := Num(v.total), "percent" := Num(Percent(v.done, v.total))]);
  }

  lemma PercentRounds(done: nat, total: nat)
    ensures var p := Percent(done, total);
            if total == 0 then p == 0 else 2 * total * p <= 200 * done + total < 2 * total * (p + 1)
  {
  }

  lemma {:induction false} KnownFilters(parsed: seq<string>, names: set<string>)
    ensures Known(parsed, names) == Filter(parsed, n => n in names)
  {
    if parsed != [] { KnownFilters(parsed[1..], names); }
  }

  /** A task's tags are the slugs its body mentions, in order, that are the name of
      some tag; without a text for a body, what the empty text mentions. */
  lemma TaskTagsMean(r: Rules, outside: nat, f: Fields, v: Surroundings)
    ensures var parsed := if "body" in f && f["body"].Str? then r.parse(f["body"].s) else r.parse("");
            At(KanbanSchema(r, outside).derive("task", f, v), "tags") == Strs(Filter(parsed, n => n in v.tagNames))
  {
    TagsRead(r, f, v);
    KnownFilters(r.parse(Body(f)), v.tagNames);
  }
}
