/** How the task list read from the cache follows a write or a deletion. */
module TaskLists {
  import opened Json
  import opened EntityCache
  import opened TaskGraph
  import opened Watcher
  import opened Replica

  lemma {:induction false} ListTasksFind(sc: Schema, c: Cache, v: Surroundings, id: string)
    ensures Has(c, TaskKey(id)) <==> FindTask(TasksUnder(sc, c, v), id).Some?
    ensures Has(c, TaskKey(id)) ==>
              FindTask(TasksUnder(sc, c, v), id) == Some(ApplyCompute(sc, Find(c, TaskKey(id)).value, v))
  {
    if c != [] {
      ListTasksFind(sc, c[1..], v, id);
      if c[0].kind == "task" {
        assert TasksUnder(sc, c, v)[0] == ApplyCompute(sc, c[0], v);
        assert TasksUnder(sc, c, v)[1..] == TasksUnder(sc, c[1..], v);
      } else {
        assert TasksUnder(sc, c, v) == TasksUnder(sc, c[1..], v);
      }
    }
  }

  lemma {:induction false} ListTasksMember(sc: Schema, c: Cache, v: Surroundings, id: string)
    ensures ListsId(TasksUnder(sc, c, v), id) <==> Has(c, TaskKey(id))
  {
    ListTasksFind(sc, c, v, id);
    FindTaskSome(TasksUnder(sc, c, v), id);
  }

  lemma {:induction false} ListTasksUnique(sc: Schema, c: Cache, v: Surroundings)
    requires Unique(c)
    ensures UniqueIds(TasksUnder(sc, c, v))
  {
    if c != [] {
      forall i, j | 0 <= i < j < |c[1..]| ensures c[1..][i].KeyOf() != c[1..][j].KeyOf() {
        assert c[i + 1].KeyOf() != c[j + 1].KeyOf();
      }
      ListTasksUnique(sc, c[1..], v);
      if c[0].kind == "task" {
        var rest := TasksUnder(sc, c[1..], v);
        FindKey(c[1..], c[0].KeyOf());
        if Has(c[1..], c[0].KeyOf()) {
          assert false;
        }
        ListTasksMember(sc, c[1..], v, c[0].id);
        var all := TasksUnder(sc, c, v);
        assert all == [ApplyCompute(sc, c[0], v)] + rest;
        forall i, j | 0 <= i < j < |all| ensures all[i].id != all[j].id {
          if i == 0 {
            assert rest[j - 1].id == all[j].id;
          } else {
            assert rest[i - 1].id != rest[j - 1].id;
          }
        }
      }
    }
  }

  /** The five fields of a task as they read under given surroundings. */
  function FiveUnder(sc: Schema, c: Cache, v: Surroundings, k: Key): Fields {
    match Find(c, k)
    case Some(e) => FiveOf(ApplyCompute(sc, e, v), TasksUnder(sc, c, v), v.terminal)
    case None => map[]
  }

  /** What the fan-out sees of each live task: its fresh five fields. */
  function FiveIn(sc: Schema, c: Cache, k: Key): Fields { FiveUnder(sc, c, Around(sc, c), k) }

  lemma {:induction false} FindTaskIndex(all: seq<Entity>, id: string) returns (i: nat)
    requires FindTask(all, id).Some?
    ensures i < |all| && all[i] == FindTask(all, id).value && all[i].id == id
  {
    if all[0].id == id {
      i := 0;
    } else {
      i := FindTaskIndex(all[1..], id);
      i := i + 1;
    }
  }

  lemma FivesOfCache(sc: Schema, c: Cache, id: string)
    requires Unique(c)
    ensures var list := ListTasks(sc, c);
            var fives := Fives(list, list, TerminalColumn(c));
            && (id in fives <==> Has(c, TaskKey(id)))
            && (id in fives ==> fives[id] == FiveIn(sc, c, TaskKey(id)))
  {
    var list := ListTasks(sc, c);
    FivesListed(list, list, TerminalColumn(c), id);
    ListTasksMember(sc, c, Around(sc, c), id);
    ListTasksUnique(sc, c, Around(sc, c));
    if Has(c, TaskKey(id)) {
      ListTasksFind(sc, c, Around(sc, c), id);
      var i := FindTaskIndex(list, id);
      FivesAt(list, list, TerminalColumn(c), i);
    }
  }

  // ---- writes and deletions --------------------------------------------------

  /** A write that keeps a task's column and dependencies keeps the graph. */
  lemma {:induction false} GraphInsert(sc: Schema, c: Cache, v: Surroundings, e: Entity)
    requires e.kind != "task" || (Has(c, e.KeyOf()) &&
             NodeOf(ApplyCompute(sc, e, v)) == NodeOf(ApplyCompute(sc, Find(c, e.KeyOf()).value, v)))
    ensures Graph(TasksUnder(sc, Insert(c, e), v)) == Graph(TasksUnder(sc, c, v))
  {
    if c == [] {
      assert Insert(c, e)[1..] == [];
      assert TasksUnder(sc, [e], v) == [];
    } else if c[0].KeyOf() == e.KeyOf() {
      var d := Insert(c, e);
      assert d[0] == e && d[1..] == c[1..];
      if e.kind == "task" {
        assert TasksUnder(sc, d, v) == [ApplyCompute(sc, e, v)] + TasksUnder(sc, c[1..], v);
        assert TasksUnder(sc, c, v) == [ApplyCompute(sc, c[0], v)] + TasksUnder(sc, c[1..], v);
        assert TasksUnder(sc, d, v)[1..] == TasksUnder(sc, c, v)[1..];
      }
    } else {
      GraphInsert(sc, c[1..], v, e);
      var d := Insert(c, e);
      assert d[0] == c[0] && d[1..] == Insert(c[1..], e);
      if c[0].kind == "task" {
        assert TasksUnder(sc, d, v)[1..] == TasksUnder(sc, d[1..], v);
        assert TasksUnder(sc, c, v)[1..] == TasksUnder(sc, c[1..], v);
      } else {
        assert TasksUnder(sc, d, v) == TasksUnder(sc, d[1..], v);
        assert TasksUnder(sc, c, v) == TasksUnder(sc, c[1..], v);
      }
    }
  }

  lemma {:induction false} ListTasksInsertNew(sc: Schema, c: Cache, v: Surroundings, e: Entity)
    requires !Has(c, e.KeyOf()) && e.kind == "task"
    ensures TasksUnder(sc, Insert(c, e), v) == TasksUnder(sc, c, v) + [ApplyCompute(sc, e, v)]
  {
    if c == [] {
      assert Insert(c, e)[1..] == [];
      assert TasksUnder(sc, [e], v) == [ApplyCompute(sc, e, v)] + TasksUnder(sc, [], v);
    } else {
      ListTasksInsertNew(sc, c[1..], v, e);
      var d := Insert(c, e);
      assert d[0] == c[0] && d[1..] == Insert(c[1..], e);
    }
  }

  lemma {:induction false} ListTasksDrop(sc: Schema, c: Cache, v: Surroundings, k: Key)
    requires k.kind != "task"
    ensures TasksUnder(sc, Drop(c, k), v) == TasksUnder(sc, c, v)
  {
    if c != [] && c[0].KeyOf() != k {
      ListTasksDrop(sc, c[1..], v, k);
      assert Drop(c, k)[0] == c[0] && Drop(c, k)[1..] == Drop(c[1..], k);
    }
  }
}
