/** The cross-task enrichment: readiness, the dependency lists, the virtual tags
    and the filter tags of one task, computed against the whole task list and
    the terminal column. */
module TaskGraph {
  import opened Json
  import opened EntityCache

  /** The task fields whose value depends on other tasks. */
  const TASK_COMPUTED_FIELDS: seq<string> :=
    ["virtual_tags", "filter_tags", "ready", "blocked_by", "blocks"]

  ghost predicate IsFive(n: string) { n in TASK_COMPUTED_FIELDS }

  function Column(e: Entity): Option<string> { GetStr(e.fields, "position_column") }

  function ColumnOr(e: Entity, absent: string): string {
    match Column(e)
    case Some(c) => c
    case None => absent
  }

  function Deps(e: Entity): seq<string> { GetStringList(e.fields, "depends_on") }

  /** First task of the list with the given id. */
  function FindTask(all: seq<Entity>, id: string): Option<Entity> {
    if all == [] then None
    else if all[0].id == id then Some(all[0])
    else FindTask(all[1..], id)
  }

  /** A dependency is met when it exists and sits in the terminal column. */
  predicate DepMet(dep: string, all: seq<Entity>, terminal: string) {
    match FindTask(all, dep)
    case Some(t) => Column(t) == Some(terminal)
    case None => false
  }

  predicate TaskIsReady(e: Entity, all: seq<Entity>, terminal: string) {
    forall d :: d in Deps(e) ==> DepMet(d, all, terminal)
  }

  function Unmet(deps: seq<string>, all: seq<Entity>, terminal: string): seq<string> {
    if deps == [] then []
    else (if DepMet(deps[0], all, terminal) then [] else [deps[0]]) + Unmet(deps[1..], all, terminal)
  }

  function TaskBlockedBy(e: Entity, all: seq<Entity>, terminal: string): seq<string> {
    Unmet(Deps(e), all, terminal)
  }

  /** Ids of the tasks that list `id` in `depends_on`, in list order. */
  function Dependents(id: string, all: seq<Entity>): seq<string> {
    if all == [] then []
    else (if id in Deps(all[0]) then [all[0].id] else []) + Dependents(id, all[1..])
  }

  // ---- virtual tags -------------------------------------------------------

  predicate MatchesReady(e: Entity, all: seq<Entity>, terminal: string) {
    && ColumnOr(e, "") != terminal
    && forall d :: d in Deps(e) ==> DepMet(d, all, terminal)
  }

  predicate MatchesBlocked(e: Entity, all: seq<Entity>, terminal: string) {
    && Deps(e) != []
    && exists d :: d in Deps(e) && !DepMet(d, all, terminal)
  }

  predicate MatchesBlocking(e: Entity, all: seq<Entity>, terminal: string) {
    && ColumnOr(e, "") != terminal
    && exists i :: 0 <= i < |all| && e.id in Deps(all[i])
  }

  /** The registry's strategies in registration order. */
  function VirtualTags(e: Entity, all: seq<Entity>, terminal: string): seq<string> {
    (if MatchesReady(e, all, terminal) then ["READY"] else []) +
    (if MatchesBlocked(e, all, terminal) then ["BLOCKED"] else []) +
    (if MatchesBlocking(e, all, terminal) then ["BLOCKING"] else [])
  }

  function NotIn(slugs: seq<string>, tags: seq<string>): seq<string> {
    if slugs == [] then []
    else (if slugs[0] in tags then [] else [slugs[0]]) + NotIn(slugs[1..], tags)
  }

  /** Body tags followed by the virtual tags not already among them. */
  function FilterTags(tags: seq<string>, virtual_: seq<string>): seq<string> {
    tags + NotIn(virtual_, tags)
  }

  function FiveFields(ready: bool, blockedBy: seq<string>, blocks: seq<string>,
                      virtual_: seq<string>, filter_: seq<string>): Fields {
    map[
      "ready" := Bool(ready),
      "blocked_by" := Strs(blockedBy),
      "blocks" := Strs(blocks),
      "virtual_tags" := Strs(virtual_),
      "filter_tags" := Strs(filter_)
    ]
  }

  /** The five cross-task fields of `e`. */
  function FiveOf(e: Entity, all: seq<Entity>, terminal: string): Fields {
    var tags := VirtualTags(e, all, terminal);
    FiveFields(
      TaskIsReady(e, all, terminal),
      TaskBlockedBy(e, all, terminal),
      Dependents(e.id, all),
      tags,
      FilterTags(GetStringList(e.fields, "tags"), tags))
  }

  function EnrichTask(e: Entity, all: seq<Entity>, terminal: string): Entity {
    e.(fields := e.fields + FiveOf(e, all, terminal))
  }

  lemma FiveFieldsKeys(ready: bool, blockedBy: seq<string>, blocks: seq<string>,
                       virtual_: seq<string>, filter_: seq<string>)
    ensures var m := FiveFields(ready, blockedBy, blocks, virtual_, filter_);
            && (forall n :: n in m <==> IsFive(n))
            && (forall n :: n in m ==> m[n] != Null)
  {
    assert TASK_COMPUTED_FIELDS[0] == "virtual_tags" && TASK_COMPUTED_FIELDS[1] == "filter_tags" &&
           TASK_COMPUTED_FIELDS[2] == "ready" && TASK_COMPUTED_FIELDS[3] == "blocked_by" &&
           TASK_COMPUTED_FIELDS[4] == "blocks";
    forall n ensures IsFive(n) <==> n in {"ready", "blocked_by", "blocks", "virtual_tags", "filter_tags"} {
      if IsFive(n) {
        var i :| 0 <= i < |TASK_COMPUTED_FIELDS| && TASK_COMPUTED_FIELDS[i] == n;
      }
    }
  }

  /** Exactly the five fields are present, and none is null. */
  lemma FiveKeys(e: Entity, all: seq<Entity>, terminal: string)
    ensures forall n :: n in FiveOf(e, all, terminal) <==> IsFive(n)
    ensures forall n :: n in FiveOf(e, all, terminal) ==> FiveOf(e, all, terminal)[n] != Null
  {
    var tags := VirtualTags(e, all, terminal);
    FiveFieldsKeys(TaskIsReady(e, all, terminal), TaskBlockedBy(e, all, terminal), Dependents(e.id, all),
                   tags, FilterTags(GetStringList(e.fields, "tags"), tags));
  }

  // ---- what the enrichment reads of other tasks ------------------------------

  /** Everything the enrichment of any task reads of a task in the list. */
  datatype Node = Node(id: string, column: Option<string>, deps: seq<string>)

  function NodeOf(e: Entity): Node { Node(e.id, Column(e), Deps(e)) }

  function Graph(all: seq<Entity>): seq<Node> {
    if all == [] then [] else [NodeOf(all[0])] + Graph(all[1..])
  }

  lemma {:induction false} DepMetLocal(dep: string, a: seq<Entity>, b: seq<Entity>, terminal: string)
    requires Graph(a) == Graph(b)
    ensures DepMet(dep, a, terminal) == DepMet(dep, b, terminal)
  {
    if a != [] {
      assert b != [];
      assert NodeOf(a[0]) == Graph(a)[0] == Graph(b)[0] == NodeOf(b[0]);
      assert Graph(a[1..]) == Graph(a)[1..] == Graph(b)[1..] == Graph(b[1..]);
      DepMetLocal(dep, a[1..], b[1..], terminal);
    } else {
      assert b == [];
    }
  }

  lemma {:induction false} UnmetLocal(deps: seq<string>, a: seq<Entity>, b: seq<Entity>, terminal: string)
    requires forall d :: d in deps ==> (DepMet(d, a, terminal) <==> DepMet(d, b, terminal))
    ensures Unmet(deps, a, terminal) == Unmet(deps, b, terminal)
  {
    if deps != [] {
      assert deps[0] in deps;
      UnmetLocal(deps[1..], a, b, terminal);
    }
  }

  lemma {:induction false} DependentsLocal(id: string, a: seq<Entity>, b: seq<Entity>)
    requires Graph(a) == Graph(b)
    ensures Dependents(id, a) == Dependents(id, b)
  {
    if a != [] {
      assert b != [];
      assert NodeOf(a[0]) == Graph(a)[0] == Graph(b)[0] == NodeOf(b[0]);
      assert Graph(a[1..]) == Graph(a)[1..] == Graph(b)[1..] == Graph(b[1..]);
      DependentsLocal(id, a[1..], b[1..]);
    } else {
      assert b == [];
    }
  }

  /** A task blocks others exactly when it has dependents. */
  lemma {:induction false} DependentsNonEmpty(id: string, all: seq<Entity>)
    ensures Dependents(id, all) != [] <==> exists i :: 0 <= i < |all| && id in Deps(all[i])
  {
    if all != [] {
      DependentsNonEmpty(id, all[1..]);
      if id in Deps(all[0]) {
      } else if Dependents(id, all[1..]) != [] {
        var i :| 0 <= i < |all[1..]| && id in Deps(all[1..][i]);
        assert all[1..][i] == all[i + 1];
      } else {
        forall i | 0 <= i < |all| ensures id !in Deps(all[i]) {
          if i > 0 { assert all[1..][i - 1] == all[i]; }
        }
      }
    }
  }

  /** Two task lists agree, for the enrichment, when they answer every
      dependency question alike and list the same dependents. */
  ghost predicate SameAnswers(a: seq<Entity>, b: seq<Entity>, terminal: string) {
    && (forall d :: DepMet(d, a, terminal) == DepMet(d, b, terminal))
    && (forall id :: Dependents(id, a) == Dependents(id, b))
  }

  lemma TagsAgree(e: Entity, a: seq<Entity>, b: seq<Entity>, terminal: string)
    requires SameAnswers(a, b, terminal)
    ensures VirtualTags(e, a, terminal) == VirtualTags(e, b, terminal)
  {
    DependentsNonEmpty(e.id, a);
    DependentsNonEmpty(e.id, b);
    assert Dependents(e.id, a) == Dependents(e.id, b);
  }

  lemma FiveAgree(e: Entity, a: seq<Entity>, b: seq<Entity>, terminal: string)
    requires SameAnswers(a, b, terminal)
    ensures FiveOf(e, a, terminal) == FiveOf(e, b, terminal)
  {
    UnmetLocal(Deps(e), a, b, terminal);
    TagsAgree(e, a, b, terminal);
    assert Dependents(e.id, a) == Dependents(e.id, b);
    assert TaskIsReady(e, a, terminal) == TaskIsReady(e, b, terminal);
  }

  lemma GraphAnswers(a: seq<Entity>, b: seq<Entity>, terminal: string)
    requires Graph(a) == Graph(b)
    ensures SameAnswers(a, b, terminal)
  {
    forall d ensures DepMet(d, a, terminal) == DepMet(d, b, terminal) { DepMetLocal(d, a, b, terminal); }
    forall id ensures Dependents(id, a) == Dependents(id, b) { DependentsLocal(id, a, b); }
  }

  /** Locality: the five fields depend on the task itself and on no more than
      the id, the column and the dependencies of the listed tasks. */
  lemma FiveLocal(e: Entity, a: seq<Entity>, b: seq<Entity>, terminal: string)
    requires Graph(a) == Graph(b)
    ensures FiveOf(e, a, terminal) == FiveOf(e, b, terminal)
  {
    GraphAnswers(a, b, terminal);
    FiveAgree(e, a, b, terminal);
  }

  /** Appending a task with neither a column nor a dependency is invisible to
      every other task's enrichment. */
  lemma FiveUnmovedByBareTask(e: Entity, all: seq<Entity>, x: Entity, terminal: string)
    requires Column(x) == None && Deps(x) == []
    ensures FiveOf(e, all + [x], terminal) == FiveOf(e, all, terminal)
  {
    forall d ensures DepMet(d, all + [x], terminal) == DepMet(d, all, terminal) { DepMetBare(d, all, x, terminal); }
    forall id ensures Dependents(id, all + [x]) == Dependents(id, all) { DependentsBare(id, all, x); }
    FiveAgree(e, all + [x], all, terminal);
  }

  lemma {:induction false} DepMetBare(d: string, all: seq<Entity>, x: Entity, terminal: string)
    requires Column(x) == None
    ensures DepMet(d, all + [x], terminal) == DepMet(d, all, terminal)
  {
    if all == [] {
      assert all + [x] == [x];
      assert FindTask([x][1..], d) == None;
    } else {
      assert (all + [x])[1..] == all[1..] + [x];
      DepMetBare(d, all[1..], x, terminal);
    }
  }

  lemma {:induction false} DependentsBare(id: string, all: seq<Entity>, x: Entity)
    requires Deps(x) == []
    ensures Dependents(id, all + [x]) == Dependents(id, all)
  {
    if all == [] {
      assert all + [x] == [x];
    } else {
      assert (all + [x])[1..] == all[1..] + [x];
      DependentsBare(id, all[1..], x);
    }
  }

  // ---- how the five fields relate -------------------------------------------

  lemma {:induction false} UnmetMembers(deps: seq<string>, all: seq<Entity>, terminal: string, d: string)
    ensures d in Unmet(deps, all, terminal) <==> d in deps && !DepMet(d, all, terminal)
  {
    if deps != [] {
      UnmetMembers(deps[1..], all, terminal, d);
      assert d in deps <==> d == deps[0] || d in deps[1..];
    }
  }

  /** `ready`, `blocked_by` and the three virtual tags tell one story. */
  lemma FiveCoherent(e: Entity, all: seq<Entity>, terminal: string)
    ensures TaskIsReady(e, all, terminal) <==> TaskBlockedBy(e, all, terminal) == []
    ensures "BLOCKED" in VirtualTags(e, all, terminal) <==> !TaskIsReady(e, all, terminal)
    ensures "READY" in VirtualTags(e, all, terminal) ==> "BLOCKED" !in VirtualTags(e, all, terminal)
    ensures Column(e).Some? && Column(e).value != terminal ==>
              ("READY" in VirtualTags(e, all, terminal) <==> TaskIsReady(e, all, terminal)) &&
              ("BLOCKING" in VirtualTags(e, all, terminal) <==> Dependents(e.id, all) != [])
  {
    var b := TaskBlockedBy(e, all, terminal);
    forall d ensures d in b <==> d in Deps(e) && !DepMet(d, all, terminal) {
      UnmetMembers(Deps(e), all, terminal, d);
    }
    if b != [] { assert b[0] in b; }
    DependentsNonEmpty(e.id, all);
    TagMembers(e, all, terminal);
  }

  lemma TagMembers(e: Entity, all: seq<Entity>, terminal: string)
    ensures "READY" in VirtualTags(e, all, terminal) <==> MatchesReady(e, all, terminal)
    ensures "BLOCKED" in VirtualTags(e, all, terminal) <==> MatchesBlocked(e, all, terminal)
    ensures "BLOCKING" in VirtualTags(e, all, terminal) <==> MatchesBlocking(e, all, terminal)
  {
    assert "READY" != "BLOCKED" && "READY" != "BLOCKING" && "BLOCKED" != "BLOCKING" by {
      assert |"READY"| == 5 && |"BLOCKED"| == 7 && |"BLOCKING"| == 8;
    }
    var r := if MatchesReady(e, all, terminal) then ["READY"] else [];
    var b := if MatchesBlocked(e, all, terminal) then ["BLOCKED"] else [];
    var g := if MatchesBlocking(e, all, terminal) then ["BLOCKING"] else [];
    assert VirtualTags(e, all, terminal) == r + b + g;
    assert forall x :: x in r + b + g <==> x in r || x in b || x in g;
  }

  // ---- task lists with distinct ids -------------------------------------------

  ghost predicate UniqueIds(all: seq<Entity>) {
    forall i, j :: 0 <= i < j < |all| ==> all[i].id != all[j].id
  }

  ghost predicate ListsId(all: seq<Entity>, id: string) {
    exists i :: 0 <= i < |all| && all[i].id == id
  }

  lemma {:induction false} FindTaskUnique(all: seq<Entity>, i: nat)
    requires UniqueIds(all) && i < |all|
    ensures FindTask(all, all[i].id) == Some(all[i])
  {
    if i > 0 {
      assert all[0].id != all[i].id;
      assert all[1..][i - 1] == all[i];
      FindTaskUnique(all[1..], i - 1);
    }
  }

  lemma {:induction false} FindTaskSome(all: seq<Entity>, id: string)
    ensures FindTask(all, id).Some? <==> ListsId(all, id)
  {
    if all != [] && all[0].id != id {
      FindTaskSome(all[1..], id);
      if ListsId(all[1..], id) {
        var i :| 0 <= i < |all[1..]| && all[1..][i].id == id;
        assert all[i + 1].id == id;
      } else {
        forall i | 0 <= i < |all| ensures all[i].id != id {
          if i > 0 { assert all[1..][i - 1] == all[i]; }
        }
      }
    } else if all != [] {
      assert all[0].id == id;
    }
  }

  /** Looking an id up in a list, by its last element. */
  lemma {:induction false} FindTaskLast(all: seq<Entity>, id: string)
    requires all != []
    ensures var n := |all| - 1;
            FindTask(all, id) ==
            if FindTask(all[..n], id).Some? then FindTask(all[..n], id)
            else if all[n].id == id then Some(all[n]) else None
  {
    var n := |all| - 1;
    if n > 0 && all[0].id != id {
      assert all[1..][..n - 1] == all[..n][1..];
      FindTaskLast(all[1..], id);
    }
  }
}
