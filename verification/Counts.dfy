/** The board summary: per-column counts, ready counts, and the subtraction that
    yields the blocked tasks. */
module Counts {
  import opened EntityCache
  import opened TaskGraph
  import opened Sorting
  import opened FiveMeaning

  type Tally = map<string, nat>

  function Get(m: Tally, k: string): nat { if k in m then m[k] else 0 }

  function ColumnIs(col: string): Entity -> bool { (e: Entity) => ColumnOr(e, "todo") == col }

  function Ready(all: seq<Entity>, terminal: string): Entity -> bool {
    (e: Entity) => TaskIsReady(e, all, terminal)
  }

  function ReadyIn(col: string, all: seq<Entity>, terminal: string): Entity -> bool {
    (e: Entity) => ColumnOr(e, "todo") == col && TaskIsReady(e, all, terminal)
  }

  /** The sum of a tally's values, in any order. */
  ghost function Total(m: Tally): nat
    decreases m.Keys
  {
    if m.Keys == {} then 0
    else
      var k :| k in m.Keys;
      m[k] + Total(m - {k})
  }

  lemma {:induction false} TotalRemove(m: Tally, k: string)
    requires k in m
    ensures Total(m) == m[k] + Total(m - {k})
    decreases m.Keys
  {
    var x :| x in m.Keys && Total(m) == m[x] + Total(m - {x});
    if x != k {
      TotalRemove(m - {x}, k);
      TotalRemove(m - {k}, x);
      assert m - {x} - {k} == m - {k} - {x};
    }
  }

  lemma TotalUpdate(m: Tally, k: string, v: nat)
    ensures Total(m[k := v]) == Total(m) - Get(m, k) + v
  {
    TotalRemove(m[k := v], k);
    assert m[k := v] - {k} == m - {k};
    if k in m {
      TotalRemove(m, k);
    } else {
      assert m - {k} == m;
    }
  }

  /** A tally counts, for every column, the tasks that satisfy its test. */
  ghost predicate Tallies(m: Tally, tasks: seq<Entity>, test: string -> (Entity -> bool)) {
    && (forall col :: Get(m, col) == |Filter(tasks, test(col))|)
    && (forall col :: col in m ==> m[col] > 0)
  }

  function ColumnTest(): string -> (Entity -> bool) { (col: string) => ColumnIs(col) }

  function ReadyTest(all: seq<Entity>, terminal: string): string -> (Entity -> bool) {
    (col: string) => ReadyIn(col, all, terminal)
  }

  lemma TallyStep(m: Tally, tasks: seq<Entity>, i: nat, test: string -> (Entity -> bool), col: string)
    requires i < |tasks| && Tallies(m, tasks[..i], test)
    requires forall c :: test(c)(tasks[i]) <==> c == col
    ensures Tallies(m[col := Get(m, col) + 1], tasks[..i + 1], test)
  {
    forall c ensures Get(m[col := Get(m, col) + 1], c) == |Filter(tasks[..i + 1], test(c))| {
      FilterLast(tasks[..i + 1], test(c));
      assert tasks[..i + 1][..i] == tasks[..i];
    }
  }

  lemma TallySkip(m: Tally, tasks: seq<Entity>, i: nat, test: string -> (Entity -> bool))
    requires i < |tasks| && Tallies(m, tasks[..i], test)
    requires forall c :: !test(c)(tasks[i])
    ensures Tallies(m, tasks[..i + 1], test)
  {
    forall c ensures Get(m, c) == |Filter(tasks[..i + 1], test(c))| {
      FilterLast(tasks[..i + 1], test(c));
      assert tasks[..i + 1][..i] == tasks[..i];
    }
  }

  /** `count_tasks_by_column` */
  method CountTasksByColumn(tasks: seq<Entity>, terminal: string) returns (counts: Tally, readyCounts: Tally)
    ensures Tallies(counts, tasks, ColumnTest())
    ensures Tallies(readyCounts, tasks, ReadyTest(tasks, terminal))
    ensures Total(counts) == |tasks|
    ensures Total(readyCounts) == |Filter(tasks, Ready(tasks, terminal))|
  {
    counts := map[];
    readyCounts := map[];
    for i := 0 to |tasks|
      invariant Tallies(counts, tasks[..i], ColumnTest())
      invariant Tallies(readyCounts, tasks[..i], ReadyTest(tasks, terminal))
      invariant Total(counts) == i
      invariant Total(readyCounts) == |Filter(tasks[..i], Ready(tasks, terminal))|
    {
      var col := ColumnOr(tasks[i], "todo");
      TallyStep(counts, tasks, i, ColumnTest(), col);
      TotalUpdate(counts, col, Get(counts, col) + 1);
      counts := counts[col := Get(counts, col) + 1];
      FilterLast(tasks[..i + 1], Ready(tasks, terminal));
      assert tasks[..i + 1][..i] == tasks[..i];
      if TaskIsReady(tasks[i], tasks, terminal) {
        TallyStep(readyCounts, tasks, i, ReadyTest(tasks, terminal), col);
        TotalUpdate(readyCounts, col, Get(readyCounts, col) + 1);
        readyCounts := readyCounts[col := Get(readyCounts, col) + 1];
      } else {
        TallySkip(readyCounts, tasks, i, ReadyTest(tasks, terminal));
      }
    }
    assert tasks[..|tasks|] == tasks;
  }

  lemma {:induction false} FilterNarrower<T>(s: seq<T>, p: T -> bool, q: T -> bool)
    requires forall x :: x in s && p(x) ==> q(x)
    ensures |Filter(s, p)| <= |Filter(s, q)| <= |s|
  {
    if s != [] {
      assert s[0] in s;
      FilterNarrower(s[1..], p, q);
    }
  }

  lemma {:induction false} FilterSplit<T>(s: seq<T>, p: T -> bool, q: T -> bool)
    requires forall x :: x in s ==> p(x) != q(x)
    ensures |Filter(s, p)| + |Filter(s, q)| == |s|
  {
    if s != [] {
      assert s[0] in s;
      FilterSplit(s[1..], p, q);
    }
  }

  /** No column has more ready tasks than tasks, so the totals cannot cross. */
  lemma ReadyWithinCounts(tasks: seq<Entity>, terminal: string, counts: Tally, readyCounts: Tally, col: string)
    requires Tallies(counts, tasks, ColumnTest()) && Tallies(readyCounts, tasks, ReadyTest(tasks, terminal))
    ensures Get(readyCounts, col) <= Get(counts, col)
    ensures |Filter(tasks, Ready(tasks, terminal))| <= |tasks|
  {
    assert ColumnTest()(col) == ColumnIs(col) && ReadyTest(tasks, terminal)(col) == ReadyIn(col, tasks, terminal);
    FilterNarrower(tasks, ReadyIn(col, tasks, terminal), ColumnIs(col));
    FilterNarrower(tasks, Ready(tasks, terminal), Ready(tasks, terminal));
  }

  datatype Summary = Summary(totalTasks: nat, readyTasks: nat, blockedTasks: nat)

  /** `build_board_summary`: the unsigned subtraction needs the total. */
  method BuildBoardSummary(totalTasks: nat, readyCounts: Tally) returns (s: Summary)
    requires Total(readyCounts) <= totalTasks
    ensures s.totalTasks == totalTasks && s.readyTasks == Total(readyCounts)
    ensures s.readyTasks + s.blockedTasks == s.totalTasks
  {
    var ready: nat := 0;
    var rest := readyCounts;
    while rest.Keys != {}
      invariant ready + Total(rest) == Total(readyCounts)
      decreases rest.Keys
    {
      var k :| k in rest.Keys;
      TotalRemove(rest, k);
      ready := ready + rest[k];
      rest := rest - {k};
    }
    s := Summary(totalTasks, ready, totalTasks - ready);
  }

  function Waiting(all: seq<Entity>, terminal: string): Entity -> bool {
    (e: Entity) => TaskBlockedBy(e, all, terminal) != []
  }

  /** The tallies in terms of what is stored: a column's tasks, and those of them
      whose dependencies are all done. */
  lemma TalliesMean(tasks: seq<Entity>, terminal: string, counts: Tally, readyCounts: Tally, col: string)
    requires Tallies(counts, tasks, ColumnTest()) && Tallies(readyCounts, tasks, ReadyTest(tasks, terminal))
    ensures Get(counts, col) == |Filter(tasks, (e: Entity) => Sits(e, col))|
    ensures Get(readyCounts, col) == |Filter(tasks, (e: Entity) => Sits(e, col) && AllDone(e, tasks, terminal))|
  {
    forall e: Entity ensures Sits(e, col) <==> ColumnOr(e, "todo") == col { SitsMeans(e, col); }
    forall e: Entity ensures TaskIsReady(e, tasks, terminal) <==> AllDone(e, tasks, terminal) { DepsMean(e, tasks, terminal); }
    FilterAlike(tasks, ColumnTest()(col), (e: Entity) => Sits(e, col));
    FilterAlike(tasks, ReadyTest(tasks, terminal)(col), (e: Entity) => Sits(e, col) && AllDone(e, tasks, terminal));
  }

  lemma TotalsMean(tasks: seq<Entity>, terminal: string)
    ensures Filter(tasks, Ready(tasks, terminal)) == Filter(tasks, (e: Entity) => AllDone(e, tasks, terminal))
    ensures Filter(tasks, Waiting(tasks, terminal)) == Filter(tasks, (e: Entity) => !AllDone(e, tasks, terminal))
  {
    forall e: Entity
      ensures Ready(tasks, terminal)(e) <==> AllDone(e, tasks, terminal)
      ensures Waiting(tasks, terminal)(e) <==> !AllDone(e, tasks, terminal)
    {
      DepsMean(e, tasks, terminal);
      FiveCoherent(e, tasks, terminal);
    }
    FilterAlike(tasks, Ready(tasks, terminal), (e: Entity) => AllDone(e, tasks, terminal));
    FilterAlike(tasks, Waiting(tasks, terminal), (e: Entity) => !AllDone(e, tasks, terminal));
  }

  /** The counting part of `get_board_data`: for every task list the subtraction
      is safe, every column's counts are its tasks and its ready tasks, the totals
      add up, and the blocked count is the number of tasks with a dependency that
      is not done. */
  method BoardSummary(tasks: seq<Entity>, terminal: string) returns (counts: Tally, readyCounts: Tally, s: Summary)
    ensures Total(counts) == |tasks| == s.totalTasks
    ensures forall col :: Get(counts, col) == |Filter(tasks, (e: Entity) => Sits(e, col))|
    ensures forall col :: Get(readyCounts, col) == |Filter(tasks, (e: Entity) => Sits(e, col) && AllDone(e, tasks, terminal))|
    ensures forall col :: Get(readyCounts, col) <= Get(counts, col)
    ensures s.readyTasks == |Filter(tasks, (e: Entity) => AllDone(e, tasks, terminal))|
    ensures s.blockedTasks == |Filter(tasks, (e: Entity) => !AllDone(e, tasks, terminal))|
    ensures s.blockedTasks == |Filter(tasks, Waiting(tasks, terminal))|
    ensures s.readyTasks + s.blockedTasks == s.totalTasks
  {
    counts, readyCounts := CountTasksByColumn(tasks, terminal);
    forall col
      ensures Get(counts, col) == |Filter(tasks, (e: Entity) => Sits(e, col))|
      ensures Get(readyCounts, col) == |Filter(tasks, (e: Entity) => Sits(e, col) && AllDone(e, tasks, terminal))|
      ensures Get(readyCounts, col) <= Get(counts, col)
    {
      TalliesMean(tasks, terminal, counts, readyCounts, col);
      ReadyWithinCounts(tasks, terminal, counts, readyCounts, col);
    }
    TotalsMean(tasks, terminal);
    ReadyWithinCounts(tasks, terminal, counts, readyCounts, "");
    forall e | e in tasks ensures Ready(tasks, terminal)(e) != Waiting(tasks, terminal)(e) {
      FiveCoherent(e, tasks, terminal);
    }
    FilterSplit(tasks, Ready(tasks, terminal), Waiting(tasks, terminal));
    s := BuildBoardSummary(|tasks|, readyCounts);
  }
}
