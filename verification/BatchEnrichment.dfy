/** The one-pass batch enrichment behind `list_entities` and the perspective
    filter, and exactly when it agrees with the per-task enrichment the bridge
    uses. */
module BatchEnrichment {
  import opened Json
  import opened EntityCache
  import opened TaskGraph

  /** Lookup tables built once per batch. `stubs` are the tasks cut down to the
      fields the virtual-tag strategies read. */
  datatype DependencyIndexes = DependencyIndexes(
    blocks: map<string, seq<string>>,
    dependsOn: map<string, seq<string>>,
    positions: map<string, string>,
    stubs: seq<Entity>)

  function Stub(e: Entity): Entity {
    Entity(e.kind, e.id, map f | f in e.fields && (f == "position_column" || f == "depends_on") :: e.fields[f])
  }

  /** `id` once for every time `dep` occurs in `deps`. */
  function Repeated(dep: string, deps: seq<string>, id: string): seq<string> {
    if deps == [] then []
    else (if deps[0] == dep then [id] else []) + Repeated(dep, deps[1..], id)
  }

  function RepeatedDependents(dep: string, all: seq<Entity>): seq<string> {
    if all == [] then []
    else RepeatedDependents(dep, all[..|all| - 1]) +
         Repeated(dep, Deps(all[|all| - 1]), all[|all| - 1].id)
  }

  function Lookup(m: map<string, seq<string>>, k: string): seq<string> {
    if k in m then m[k] else []
  }

  ghost predicate BucketsOf(blocks: map<string, seq<string>>, all: seq<Entity>) {
    forall d :: Lookup(blocks, d) == RepeatedDependents(d, all)
  }

  /** The table holds `f` of every listed task under its id, and nothing else. */
  ghost predicate TableOf<T(!new)>(table: map<string, T>, f: Entity -> T, all: seq<Entity>) {
    && (forall id :: id in table ==> ListsId(all, id))
    && (forall i :: 0 <= i < |all| ==> all[i].id in table && table[all[i].id] == f(all[i]))
  }

  ghost predicate StubsOf(stubs: seq<Entity>, all: seq<Entity>) {
    |stubs| == |all| && forall i :: 0 <= i < |all| ==> stubs[i] == Stub(all[i])
  }

  const PLACE: Entity -> string := (e: Entity) => ColumnOr(e, "")
  const NEEDS: Entity -> seq<string> := (e: Entity) => Deps(e)

  /** What the tables say about a task list whose ids are distinct. */
  ghost predicate Indexes(ix: DependencyIndexes, all: seq<Entity>) {
    && BucketsOf(ix.blocks, all)
    && TableOf(ix.dependsOn, NEEDS, all)
    && TableOf(ix.positions, PLACE, all)
    && StubsOf(ix.stubs, all)
  }

  lemma {:induction false} RepeatedPrefix(dep: string, deps: seq<string>, id: string, j: nat)
    requires j < |deps|
    ensures Repeated(dep, deps[..j + 1], id) ==
            Repeated(dep, deps[..j], id) + if deps[j] == dep then [id] else []
  {
    if j == 0 {
      assert deps[..1] == [deps[0]];
      assert deps[..0] == [];
      assert Repeated(dep, [deps[0]][1..], id) == [];
    } else {
      assert deps[..j + 1][1..] == deps[1..][..j];
      assert deps[..j][1..] == deps[1..][..j - 1];
      RepeatedPrefix(dep, deps[1..], id, j - 1);
    }
  }

  /** Each bucket has grown by one `id` for every mention in `deps`. */
  ghost predicate Grown(blocks: map<string, seq<string>>, blocks0: map<string, seq<string>>, deps: seq<string>, id: string) {
    forall d :: Lookup(blocks, d) == Lookup(blocks0, d) + Repeated(d, deps, id)
  }

  lemma BucketStep(before: seq<string>, before0: seq<string>, deps: seq<string>, j: nat, id: string, d: string)
    requires j < |deps| && before == before0 + Repeated(d, deps[..j], id)
    ensures (if d == deps[j] then before + [id] else before) == before0 + Repeated(d, deps[..j + 1], id)
  {
    RepeatedPrefix(d, deps, id, j);
    var added := Repeated(d, deps[..j], id);
    assert before0 + added + [id] == before0 + (added + [id]);
  }

  lemma GrowStep(before: map<string, seq<string>>, blocks0: map<string, seq<string>>, deps: seq<string>, j: nat, id: string)
    requires j < |deps| && Grown(before, blocks0, deps[..j], id)
    ensures Grown(before[deps[j] := Lookup(before, deps[j]) + [id]], blocks0, deps[..j + 1], id)
  {
    var bucket := Lookup(before, deps[j]) + [id];
    var blocks := before[deps[j] := bucket];
    forall d ensures Lookup(blocks, d) == Lookup(blocks0, d) + Repeated(d, deps[..j + 1], id) {
      BucketStep(Lookup(before, d), Lookup(blocks0, d), deps, j, id, d);
      assert Lookup(blocks, d) == if d == deps[j] then bucket else Lookup(before, d);
    }
  }

  /** Pushes `id` onto the bucket of each of its dependencies. */
  method AddToBuckets(blocks0: map<string, seq<string>>, deps: seq<string>, id: string)
    returns (blocks: map<string, seq<string>>)
    ensures Grown(blocks, blocks0, deps, id)
  {
    blocks := blocks0;
    for j := 0 to |deps|
      invariant Grown(blocks, blocks0, deps[..j], id)
    {
      GrowStep(blocks, blocks0, deps, j, id);
      blocks := blocks[deps[j] := Lookup(blocks, deps[j]) + [id]];
    }
    assert deps[..|deps|] == deps;
  }

  lemma BucketsExtend(blocks0: map<string, seq<string>>, blocks: map<string, seq<string>>, all: seq<Entity>, e: Entity)
    requires BucketsOf(blocks0, all) && Grown(blocks, blocks0, Deps(e), e.id)
    ensures BucketsOf(blocks, all + [e])
  {
    assert (all + [e])[..|all|] == all;
  }

  lemma TableExtends<T(!new)>(table: map<string, T>, f: Entity -> T, all: seq<Entity>, e: Entity)
    requires TableOf(table, f, all) && !ListsId(all, e.id)
    ensures TableOf(table[e.id := f(e)], f, all + [e])
  {
    var big := all + [e];
    forall id | id in table[e.id := f(e)] ensures ListsId(big, id) {
      if id == e.id {
        assert big[|all|].id == id;
      } else {
        var m :| 0 <= m < |all| && all[m].id == id;
        assert big[m].id == id;
      }
    }
  }

  /** What one more task makes of the tables. */
  function Indexed(ix: DependencyIndexes, e: Entity, blocks: map<string, seq<string>>): DependencyIndexes {
    DependencyIndexes(blocks, ix.dependsOn[e.id := Deps(e)], ix.positions[e.id := ColumnOr(e, "")], ix.stubs + [Stub(e)])
  }

  lemma IndexesExtend(ix: DependencyIndexes, all: seq<Entity>, e: Entity, blocks: map<string, seq<string>>)
    requires Indexes(ix, all) && !ListsId(all, e.id)
    requires Grown(blocks, ix.blocks, Deps(e), e.id)
    ensures Indexes(Indexed(ix, e, blocks), all + [e])
  {
    BucketsExtend(ix.blocks, blocks, all, e);
    TableExtends(ix.dependsOn, NEEDS, all, e);
    TableExtends(ix.positions, PLACE, all, e);
  }

  lemma UniquePrefix(all: seq<Entity>, i: nat)
    requires UniqueIds(all) && i < |all|
    ensures !ListsId(all[..i], all[i].id)
  {
  }

  method BuildDependencyIndexes(all: seq<Entity>) returns (ix: DependencyIndexes)
    ensures UniqueIds(all) ==> Indexes(ix, all)
  {
    ix := DependencyIndexes(map[], map[], map[], []);
    for i := 0 to |all|
      invariant UniqueIds(all) ==> Indexes(ix, all[..i])
    {
      var blocks := AddToBuckets(ix.blocks, Deps(all[i]), all[i].id);
      if UniqueIds(all) {
        UniquePrefix(all, i);
        IndexesExtend(ix, all[..i], all[i], blocks);
      }
      assert all[..i + 1] == all[..i] + [all[i]];
      ix := Indexed(ix, all[i], blocks);
    }
    assert all[..|all|] == all;
  }

  predicate MetFast(d: string, ix: DependencyIndexes, terminal: string) {
    d in ix.positions && ix.positions[d] == terminal
  }

  function UnmetFast(deps: seq<string>, ix: DependencyIndexes, terminal: string): seq<string> {
    if deps == [] then []
    else (if MetFast(deps[0], ix, terminal) then [] else [deps[0]]) + UnmetFast(deps[1..], ix, terminal)
  }

  function FiveFast(e: Entity, ix: DependencyIndexes, terminal: string): Fields {
    var blockedBy := UnmetFast(Lookup(ix.dependsOn, e.id), ix, terminal);
    var tags := VirtualTags(e, ix.stubs, terminal);
    FiveFields(blockedBy == [], blockedBy, Lookup(ix.blocks, e.id), tags,
               FilterTags(GetStringList(e.fields, "tags"), tags))
  }

  function WithFive(e: Entity, ix: DependencyIndexes, terminal: string): Entity {
    e.(fields := e.fields + FiveFast(e, ix, terminal))
  }

  /** The first `n` tasks carry their five fields, the others are as they were. */
  ghost predicate EnrichedTo(was: seq<Entity>, now: seq<Entity>, n: nat, ix: DependencyIndexes, terminal: string) {
    && |now| == |was|
    && (forall i :: 0 <= i < |was| ==> now[i] == if i < n then WithFive(was[i], ix, terminal) else was[i])
  }

  lemma EnrichStep(was: seq<Entity>, now: seq<Entity>, n: nat, ix: DependencyIndexes, terminal: string)
    requires EnrichedTo(was, now, n, ix, terminal) && n < |was|
    ensures EnrichedTo(was, now[n := WithFive(now[n], ix, terminal)], n + 1, ix, terminal)
  {
  }

  /** Enriches every task of the slice in place. */
  method EnrichAllTaskEntities(tasks: array<Entity>, terminal: string) returns (ghost ix: DependencyIndexes)
    modifies tasks
    ensures UniqueIds(old(tasks[..])) ==> Indexes(ix, old(tasks[..]))
    ensures EnrichedTo(old(tasks[..]), tasks[..], tasks.Length, ix, terminal)
  {
    ghost var was := tasks[..];
    var indexes := BuildDependencyIndexes(tasks[..]);
    ix := indexes;
    for i := 0 to tasks.Length
      invariant EnrichedTo(was, tasks[..], i, indexes, terminal)
    {
      EnrichStep(was, tasks[..], i, indexes, terminal);
      ghost var before := tasks[..];
      tasks[i] := WithFive(tasks[i], indexes, terminal);
      assert tasks[..] == before[i := WithFive(before[i], indexes, terminal)];
    }
  }

  // ---- when the batch agrees with the per-task enrichment ----------------------

  function Count(deps: seq<string>, id: string): nat {
    if deps == [] then 0 else (if deps[0] == id then 1 else 0) + Count(deps[1..], id)
  }

  /** No task names `id` more than once among its dependencies. */
  ghost predicate NamedOnce(id: string, all: seq<Entity>) {
    forall i :: 0 <= i < |all| ==> Count(Deps(all[i]), id) <= 1
  }

  /** `e` depends on a listed task that has no column. */
  ghost predicate DependsOnUnplaced(e: Entity, all: seq<Entity>) {
    exists d :: d in Deps(e) && Unplaced(d, all)
  }

  ghost predicate Unplaced(d: string, all: seq<Entity>) {
    FindTask(all, d).Some? && Column(FindTask(all, d).value) == None
  }

  lemma {:induction false} CountIn(deps: seq<string>, id: string)
    ensures id in deps <==> Count(deps, id) > 0
  {
    if deps != [] { CountIn(deps[1..], id); }
  }

  /** A task enters the bucket once for each mention, the reverse lookup once. */
  lemma {:induction false} RepeatedCount(dep: string, deps: seq<string>, id: string)
    ensures |Repeated(dep, deps, id)| == Count(deps, dep)
    ensures Count(deps, dep) <= 1 ==> Repeated(dep, deps, id) == if dep in deps then [id] else []
  {
    CountIn(deps, dep);
    if deps != [] {
      RepeatedCount(dep, deps[1..], id);
      CountIn(deps[1..], dep);
      if Count(deps[1..], dep) == 0 { assert Repeated(dep, deps[1..], id) == []; }
    }
  }

  lemma {:induction false} DependentsConcat(id: string, a: seq<Entity>, b: seq<Entity>)
    ensures Dependents(id, a + b) == Dependents(id, a) + Dependents(id, b)
  {
    if a == [] {
      assert a + b == b;
    } else {
      assert (a + b)[1..] == a[1..] + b;
      assert (a + b)[0] == a[0];
      DependentsConcat(id, a[1..], b);
    }
  }

  lemma DependentsOne(id: string, e: Entity)
    ensures Dependents(id, [e]) == if id in Deps(e) then [e.id] else []
  {
    assert [e][1..] == [] && Dependents(id, []) == [];
  }

  lemma NamedOnceLast(id: string, all: seq<Entity>)
    requires all != []
    ensures NamedOnce(id, all) <==> NamedOnce(id, all[..|all| - 1]) && Count(Deps(all[|all| - 1]), id) <= 1
  {
    var n := |all| - 1;
    assert forall i :: 0 <= i < n ==> all[..n][i] == all[i];
    if NamedOnce(id, all[..n]) && Count(Deps(all[n]), id) <= 1 {
      forall i | 0 <= i < |all| ensures Count(Deps(all[i]), id) <= 1 {
        if i < n { assert Count(Deps(all[..n][i]), id) <= 1; }
      }
    }
  }

  lemma {:induction false} RepeatedVersusDependents(id: string, all: seq<Entity>)
    ensures |RepeatedDependents(id, all)| >= |Dependents(id, all)|
    ensures NamedOnce(id, all) ==> RepeatedDependents(id, all) == Dependents(id, all)
    ensures !NamedOnce(id, all) ==> |RepeatedDependents(id, all)| > |Dependents(id, all)|
  {
    if all != [] {
      var n := |all| - 1;
      RepeatedVersusDependents(id, all[..n]);
      assert all == all[..n] + [all[n]];
      DependentsConcat(id, all[..n], [all[n]]);
      DependentsOne(id, all[n]);
      NamedOnceLast(id, all);
      RepeatedCount(id, Deps(all[n]), all[n].id);
      CountIn(Deps(all[n]), id);
    }
  }

  lemma PositionOf(d: string, ix: DependencyIndexes, all: seq<Entity>)
    requires UniqueIds(all) && Indexes(ix, all)
    ensures d in ix.positions <==> FindTask(all, d).Some?
    ensures d in ix.positions ==> ix.positions[d] == ColumnOr(FindTask(all, d).value, "")
  {
    FindTaskSome(all, d);
    if ListsId(all, d) {
      var i :| 0 <= i < |all| && all[i].id == d;
      FindTaskUnique(all, i);
    }
  }

  /** Where the two dependency tests differ: an empty terminal id and a
      dependency without a column. */
  lemma DepTestsCompared(d: string, ix: DependencyIndexes, all: seq<Entity>, terminal: string)
    requires UniqueIds(all) && Indexes(ix, all)
    ensures MetFast(d, ix, terminal) <==> DepMet(d, all, terminal) || (terminal == "" && Unplaced(d, all))
  {
    PositionOf(d, ix, all);
  }

  lemma {:induction false} UnmetCompared(deps: seq<string>, ix: DependencyIndexes, all: seq<Entity>, terminal: string)
    requires UniqueIds(all) && Indexes(ix, all)
    ensures |UnmetFast(deps, ix, terminal)| <= |Unmet(deps, all, terminal)|
    ensures !(terminal == "" && exists d :: d in deps && Unplaced(d, all)) ==>
              UnmetFast(deps, ix, terminal) == Unmet(deps, all, terminal)
    ensures (terminal == "" && exists d :: d in deps && Unplaced(d, all)) ==>
              |UnmetFast(deps, ix, terminal)| < |Unmet(deps, all, terminal)|
  {
    if deps != [] {
      UnmetCompared(deps[1..], ix, all, terminal);
      DepTestsCompared(deps[0], ix, all, terminal);
      assert forall d :: d in deps <==> d == deps[0] || d in deps[1..];
    }
  }

  lemma {:induction false} StubGraph(stubs: seq<Entity>, all: seq<Entity>)
    requires |stubs| == |all|
    requires forall i :: 0 <= i < |all| ==> stubs[i] == Stub(all[i])
    ensures Graph(stubs) == Graph(all)
  {
    if all != [] {
      assert stubs[0] == Stub(all[0]);
      StubGraph(stubs[1..], all[1..]);
    }
  }

  lemma StubTags(e: Entity, ix: DependencyIndexes, all: seq<Entity>, terminal: string)
    requires Indexes(ix, all)
    ensures VirtualTags(e, ix.stubs, terminal) == VirtualTags(e, all, terminal)
  {
    StubGraph(ix.stubs, all);
    GraphAnswers(ix.stubs, all, terminal);
    TagsAgree(e, ix.stubs, all, terminal);
  }

  lemma FiveFieldsDiffer(r1: bool, a1: seq<string>, b1: seq<string>, v: seq<string>, f: seq<string>,
                         r2: bool, a2: seq<string>, b2: seq<string>)
    requires a1 != a2 || b1 != b2
    ensures FiveFields(r1, a1, b1, v, f) != FiveFields(r2, a2, b2, v, f)
  {
    StrsInjective(a1, a2);
    StrsInjective(b1, b2);
    var m1, m2 := FiveFields(r1, a1, b1, v, f), FiveFields(r2, a2, b2, v, f);
    assert m1["blocked_by"] == Strs(a1) && m2["blocked_by"] == Strs(a2);
    assert m1["blocks"] == Strs(b1) && m2["blocks"] == Strs(b2);
  }

  lemma FastFields(i: nat, all: seq<Entity>, ix: DependencyIndexes, terminal: string)
    requires i < |all| && Indexes(ix, all)
    ensures var e := all[i];
            var tags := VirtualTags(e, all, terminal);
            var unmet := UnmetFast(Deps(e), ix, terminal);
            FiveFast(e, ix, terminal) == FiveFields(unmet == [], unmet, RepeatedDependents(e.id, all), tags,
                                                    FilterTags(GetStringList(e.fields, "tags"), tags))
  {
    StubTags(all[i], ix, all, terminal);
    assert Lookup(ix.dependsOn, all[i].id) == NEEDS(all[i]);
  }

  /** The batch agrees with the per-task enrichment on a task exactly when no
      task lists its id twice and it does not wait, under an empty terminal
      column id, on a task without a column. */
  lemma BatchRefinesSingle(i: nat, all: seq<Entity>, ix: DependencyIndexes, terminal: string)
    requires i < |all| && UniqueIds(all) && Indexes(ix, all)
    ensures FiveFast(all[i], ix, terminal) == FiveOf(all[i], all, terminal) <==>
            NamedOnce(all[i].id, all) && !(terminal == "" && DependsOnUnplaced(all[i], all))
  {
    var e := all[i];
    var fast, slow := UnmetFast(Deps(e), ix, terminal), Unmet(Deps(e), all, terminal);
    FastFields(i, all, ix, terminal);
    UnmetCompared(Deps(e), ix, all, terminal);
    RepeatedVersusDependents(e.id, all);
    FiveCoherent(e, all, terminal);
    if fast != slow || RepeatedDependents(e.id, all) != Dependents(e.id, all) {
      var tags := VirtualTags(e, all, terminal);
      FiveFieldsDiffer(fast == [], fast, RepeatedDependents(e.id, all), tags,
                       FilterTags(GetStringList(e.fields, "tags"), tags),
                       TaskIsReady(e, all, terminal), slow, Dependents(e.id, all));
    }
  }

  /** What the batch leaves of each task: the task itself, every other field as it
      was, and the per-task enrichment exactly under those conditions. */
  lemma BatchEnriches(was: seq<Entity>, now: seq<Entity>, ix: DependencyIndexes, terminal: string, i: nat, f: string)
    requires i < |was| && UniqueIds(was) && Indexes(ix, was) && EnrichedTo(was, now, |was|, ix, terminal)
    ensures now[i].KeyOf() == was[i].KeyOf()
    ensures !IsFive(f) ==> (f in now[i].fields <==> f in was[i].fields) && At(now[i].fields, f) == At(was[i].fields, f)
    ensures now[i] == EnrichTask(was[i], was, terminal) <==>
            NamedOnce(was[i].id, was) && !(terminal == "" && DependsOnUnplaced(was[i], was))
  {
    BatchRefinesSingle(i, was, ix, terminal);
    FiveKeys(was[i], was, terminal);
    FastKeys(was[i], ix, terminal);
    JoinedFive(was[i].fields, FiveFast(was[i], ix, terminal), FiveOf(was[i], was, terminal), f);
  }

  /** Two fives joined to the same fields. */
  lemma JoinedFive(m: Fields, a: Fields, b: Fields, f: string)
    requires forall n :: (n in a <==> IsFive(n)) && (n in b <==> IsFive(n))
    ensures m + a == m + b <==> a == b
    ensures !IsFive(f) ==> (f in m + a <==> f in m) && At(m + a, f) == At(m, f)
  {
    if m + a == m + b {
      assert forall n :: n in a ==> (m + a)[n] == a[n] && (m + b)[n] == b[n];
      assert a == b;
    }
  }

  lemma FastKeys(e: Entity, ix: DependencyIndexes, terminal: string)
    ensures forall n :: n in FiveFast(e, ix, terminal) <==> IsFive(n)
  {
    var blockedBy := UnmetFast(Lookup(ix.dependsOn, e.id), ix, terminal);
    var tags := VirtualTags(e, ix.stubs, terminal);
    FiveFieldsKeys(blockedBy == [], blockedBy, Lookup(ix.blocks, e.id), tags, FilterTags(GetStringList(e.fields, "tags"), tags));
  }

  /** Two tasks on which the two disagree: the second lists the first twice, so
      the batch names it twice among those the first one blocks. */
  lemma ListedTwiceDisagrees(ix: DependencyIndexes, terminal: string)
    requires Indexes(ix, LISTED_TWICE)
    ensures FiveFast(LISTED_TWICE[0], ix, terminal) != FiveOf(LISTED_TWICE[0], LISTED_TWICE, terminal)
  {
    ListedTwice();
    BatchRefinesSingle(0, LISTED_TWICE, ix, terminal);
  }

  lemma ListedTwice()
    ensures UniqueIds(LISTED_TWICE) && LISTED_TWICE[0].id == "a" && !NamedOnce("a", LISTED_TWICE)
  {
    assert |"a"| == 1 && "a"[0] != "b"[0];
    NamedTwice(LISTED_TWICE[1]);
    assert Count(Deps(LISTED_TWICE[1]), "a") == 2;
  }

  const LISTED_TWICE: seq<Entity> :=
    [Entity("task", "a", map[]), Entity("task", "b", map["depends_on" := Strs(["a", "a"])])]

  lemma NamedTwice(b: Entity)
    requires b.fields == map["depends_on" := Strs(["a", "a"])]
    ensures Count(Deps(b), "a") == 2
  {
    var items := Strs(["a", "a"]).items;
    assert items == [Str("a"), Str("a")];
    assert items[1..] == [Str("a")] && [Str("a")][1..] == [];
    assert Strings([]) == [] && Strings([Str("a")]) == ["a"] && Strings(items) == ["a"] + ["a"];
    assert Deps(b) == ["a", "a"] && ["a", "a"][1..] == ["a"] && ["a"][1..] == [];
    assert Count(["a"], "a") == 1;
  }
}
