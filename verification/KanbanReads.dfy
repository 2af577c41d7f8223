/** The shipped registry's own stale reads: a written tag against the tasks that
    mention it, and a written task against the board's completion. */
module KanbanReads {
  import opened Json
  import opened EntityCache
  import opened Watcher
  import opened Replica
  import opened EventQueue
  import opened Convergence
  import opened Delivery
  import opened Quiescence
  import opened Registry
  import opened StaleReads

  // ---- tags -----------------------------------------------------------------------------------

  lemma {:induction false} TasksKept(c: Cache, e: Entity, k: Key, column: string)
    requires e.kind != "task" && k.kind != "task"
    ensures TasksIn(Insert(c, e), column) == TasksIn(c, column) && TaskCount(Insert(c, e)) == TaskCount(c)
    ensures TasksIn(Drop(c, k), column) == TasksIn(c, column) && TaskCount(Drop(c, k)) == TaskCount(c)
  {
    if c == [] {
      assert [e][1..] == [];
    } else {
      TasksKept(c[1..], e, k, column);
      if c[0].KeyOf() == e.KeyOf() {
        assert ([e] + c[1..])[1..] == c[1..];
      } else {
        assert Insert(c, e)[1..] == Insert(c[1..], e);
      }
      if c[0].KeyOf() != k { assert Drop(c, k)[1..] == Drop(c[1..], k); }
    }
  }

  ghost predicate TagAction(a: Action) {
    (a.Put? && a.e.kind == "tag") || (a.Remove? && a.key.kind == "tag")
  }

  /** A written or deleted tag moves the tag names and nothing else around. */
  lemma TagMovesNames(sc: Schema, s: System, a: Action)
    requires TagAction(a)
    ensures var u, v := Around(sc, s.cache), Around(sc, Written(s, a));
            v == u.(tagNames := v.tagNames)
  {
    assert |"tag"| == 3 && |"task"| == 4 && |"column"| == 6;
    if a.Put? {
      ColumnsInsert(s.cache, a.e);
      TasksKept(s.cache, a.e, a.e.KeyOf(), TerminalColumn(s.cache));
    } else {
      ColumnsDrop(s.cache, a.key);
      TasksKept(s.cache, Entity(a.key.kind, a.key.id, map[]), a.key, TerminalColumn(s.cache));
    }
  }

  lemma TagsOwnName(r: Rules, outside: nat)
    ensures OwnName(KanbanSchema(r, outside), "task", "tags")
  {
    RegisteredNames("tags");
    FiveNames("tags");
    assert |"tags"| == 4 && |"ready"| == 5 && |"blocks"| == 6 && |"virtual_tags"| == 12;
  }

  /** Under surroundings that differ in the tag names only, a task reads alike
      exactly when the names give it the same tags. */
  lemma TagNamesStay(r: Rules, sc: Schema, c: Cache, s: Store, u: Surroundings, v: Surroundings, k: Key)
    requires sc == KanbanSchema(r, sc.outside) && v == u.(tagNames := v.tagNames) && Has(c, k)
    ensures Stays(sc, c, s, u, v, k) <==>
            (k.kind == "task" ==> TaskTags(r, FieldsIn(c, k), u.tagNames) == TaskTags(r, FieldsIn(c, k), v.tagNames))
  {
    var f := FieldsIn(c, k);
    FindKey(c, k);
    if k.kind == "task" {
      TagsRead(r, f, u);
      TagsRead(r, f, v);
      TagsOwnName(r, sc.outside);
      StrsInjective(TaskTags(r, f, u.tagNames), TaskTags(r, f, v.tagNames));
      assert OwnValue(sc, c, u, k, "tags") == Strs(TaskTags(r, f, u.tagNames));
      assert OwnValue(sc, c, v, k, "tags") == Strs(TaskTags(r, f, v.tagNames));
      if TaskTags(r, f, u.tagNames) == TaskTags(r, f, v.tagNames) {
        assert DeriveTask(r, f, u) == DeriveTask(r, f, v);
        SameDerivedStays(sc, c, s, u, v, k);
      }
    } else {
      assert sc.derive(k.kind, f, u) == sc.derive(k.kind, f, v);
      SameDerivedStays(sc, c, s, u, v, k);
    }
  }

  lemma SameDerivedStays(sc: Schema, c: Cache, s: Store, u: Surroundings, v: Surroundings, k: Key)
    requires Has(c, k) && u.terminal == v.terminal
    requires sc.derive(k.kind, FieldsIn(c, k), u) == sc.derive(k.kind, FieldsIn(c, k), v)
    ensures Stays(sc, c, s, u, v, k)
  {
    FindKey(c, k);
    assert forall n :: OwnValue(sc, c, u, k, n) == OwnValue(sc, c, v, k, n);
    assert Reading(sc, c, u, k) == Reading(sc, c, v, k);
  }

  /** Once the event of a written or deleted tag is resolved, the replica is right
      if and only if the tag names now known give every task the tags they gave
      it before: no task that mentions the tag is visited. */
  lemma TagWriteConverges(r: Rules, s: System, a: Action)
    requires var sc := KanbanSchema(r, s.outside);
             AtRest(sc, s) && OffGraph(sc, s, a) && TagAction(a)
    ensures var sc := KanbanSchema(r, s.outside);
            var s' := AfterWrite(sc, s, a);
            Converged(sc, s'.cache, s'.store) <==>
            forall k: Key :: k.kind == "task" && Has(s.cache, k) ==>
              TaskTags(r, FieldsIn(s.cache, k), TagNames(s.cache)) == TaskTags(r, FieldsIn(s.cache, k), TagNames(s'.cache))
  {
    var sc := KanbanSchema(r, s.outside);
    var s' := AfterWrite(sc, s, a);
    assert Now(sc, s) == sc;
    KanbanWellFormed(r, s.outside);
    OffGraphStep(sc, s, a);
    TagMovesNames(sc, s, a);
    OffGraphWriteConverges(sc, s, a);
    forall k | Has(s.cache, k)
      ensures Stays(sc, s.cache, s.store, Around(sc, s.cache), Around(sc, s'.cache), k) <==>
              (k.kind == "task" ==>
                 TaskTags(r, FieldsIn(s.cache, k), TagNames(s.cache)) == TaskTags(r, FieldsIn(s.cache, k), TagNames(s'.cache)))
    {
      TagNamesStay(r, sc, s.cache, s.store, Around(sc, s.cache), Around(sc, s'.cache), k);
    }
    assert forall k: Key :: k.kind == "task" ==> !Writes(a, k);
  }

  lemma {:induction false} KnownMember(parsed: seq<string>, names: set<string>, n: string)
    ensures n in Known(parsed, names) <==> n in parsed && n in names
  {
    if parsed != [] { KnownMember(parsed[1..], names, n); }
  }

  /** So a new tag that some task already mentions leaves that task stale. */
  lemma NewTagGoesStale(r: Rules, s: System, tag: Entity, changes: seq<FieldChange>, k: Key, name: string)
    requires var sc := KanbanSchema(r, s.outside);
             AtRest(sc, s) && OffGraph(sc, s, Put(tag, changes)) && tag.kind == "tag"
    requires GetStr(tag.fields, "tag_name") == Some(name) && name !in TagNames(s.cache)
    requires k.kind == "task" && Has(s.cache, k) && name in r.parse(Body(FieldsIn(s.cache, k)))
    ensures var sc := KanbanSchema(r, s.outside);
            var s' := AfterWrite(sc, s, Put(tag, changes));
            !Converged(sc, s'.cache, s'.store)
  {
    var sc, a := KanbanSchema(r, s.outside), Put(tag, changes);
    KanbanWellFormed(r, s.outside);
    OffGraphStep(sc, s, a);
    TagWriteConverges(r, s, a);
    var c' := Insert(s.cache, tag);
    FindInsert(s.cache, tag, tag.KeyOf());
    FindKey(c', tag.KeyOf());
    assert tag in c' && name in TagNames(c');
    var parsed := r.parse(Body(FieldsIn(s.cache, k)));
    KnownMember(parsed, TagNames(s.cache), name);
    KnownMember(parsed, TagNames(c'), name);
  }

  // ---- the board's completion --------------------------------------------------------------------

  /** A write that changes a task, or the deletion of one. */
  ghost predicate TaskAction(s: System, a: Action) {
    (a.Put? && a.e.kind == "task" && !(Has(s.cache, a.e.KeyOf()) && FieldsIn(s.cache, a.e.KeyOf()) == a.e.fields)) ||
    (a.Remove? && a.key.kind == "task")
  }

  lemma PercentDiffers(d1: nat, t1: nat, d2: nat, t2: nat)
    ensures PercentComplete(d1, t1) == PercentComplete(d2, t2) <==> d1 == d2 && t1 == t2
  {
    var m1, m2 := PercentComplete(d1, t1).members, PercentComplete(d2, t2).members;
    assert |"done"| == 4 && |"total"| == 5 && |"percent"| == 7;
    assert m1["done"] == Num(d1) && m2["done"] == Num(d2) && m1["total"] == Num(t1) && m2["total"] == Num(t2);
  }

  /** A copy of a board holds its completion under exactly those surroundings
      that give the same counts. */
  lemma BoardHeld(r: Rules, sc: Schema, c: Cache, s: Store, u: Surroundings, v: Surroundings, k: Key)
    requires sc == KanbanSchema(r, sc.outside) && k.kind == "board" && Has(c, k) && OwnHeld(sc, c, s, u, k)
    ensures OwnHeld(sc, c, s, v, k) <==> u.done == v.done && u.total == v.total
  {
    PercentDiffers(u.done, u.total, v.done, v.total);
    assert |"task"| != |"board"|;
    assert OwnName(sc, k.kind, "percent_complete");
    assert OwnValue(sc, c, u, k, "percent_complete") == PercentComplete(u.done, u.total);
    assert OwnValue(sc, c, v, k, "percent_complete") == PercentComplete(v.done, v.total);
    assert forall n :: OwnName(sc, k.kind, n) ==> n == "percent_complete";
  }

  /** After one write to a task, once everything it queued is resolved, a board is
      right if and only if the write left both counts as they were. */
  lemma BoardAfterTaskWrite(r: Rules, s: System, a: Action, k: Key)
    requires var sc := KanbanSchema(r, s.outside);
             AtRest(sc, s) && Enabled(sc, s, a) && TaskAction(s, a)
    requires k.kind == "board" && Has(s.cache, k)
    ensures var sc := KanbanSchema(r, s.outside);
            var s' := Step(sc, Step(sc, s, a), Deliver);
            var u, v := Around(sc, s.cache), Around(sc, s'.cache);
            HeldFor(sc, s'.cache, s'.store, k) <==> u.done == v.done && u.total == v.total
  {
    var sc := KanbanSchema(r, s.outside);
    var s1 := Step(sc, s, a);
    var s' := Step(sc, s1, Deliver);
    assert |"task"| != |"board"|;
    KanbanWellFormed(r, s.outside);
    assert Now(sc, s) == sc && Now(sc, s1) == sc;
    StepKeepsInv(sc, s, a);
    StepKeepsInv(sc, s1, Deliver);
    DeliveredNow(sc, s1);
    if a.Put? { FindInsert(s.cache, a.e, k); } else { FindDrop(s.cache, a.key, k); }
    QuietInv(sc, s, k);
    QuietInv(sc, s', k);
    assert HeldFor(sc, s.cache, s.store, k);
    assert !Concerns(s1.queue[0], k) && s'.own(k) == s.own(k);
    BoardHeld(r, sc, s.cache, s.store, s.own(k), Around(sc, s.cache), k);
    BoardHeld(r, sc, s'.cache, s'.store, s'.own(k), Around(sc, s'.cache), k);
  }

  lemma {:induction false} OneMoreTask(c: Cache, e: Entity)
    requires e.kind == "task" && !Has(c, e.KeyOf())
    ensures TaskCount(Insert(c, e)) == TaskCount(c) + 1
  {
    if c == [] {
      assert [e][1..] == [] && TaskCount([]) == 0;
    } else {
      OneMoreTask(c[1..], e);
      assert Insert(c, e)[1..] == Insert(c[1..], e);
    }
  }

  /** So every creation of a task leaves the board's completion stale. */
  lemma NewTaskLeavesBoardStale(r: Rules, s: System, e: Entity, changes: seq<FieldChange>, k: Key)
    requires var sc := KanbanSchema(r, s.outside);
             AtRest(sc, s) && Enabled(sc, s, Put(e, changes))
    requires e.kind == "task" && !Has(s.cache, e.KeyOf()) && k.kind == "board" && Has(s.cache, k)
    ensures var sc := KanbanSchema(r, s.outside);
            var s' := Step(sc, Step(sc, s, Put(e, changes)), Deliver);
            s'.queue == [] && !HeldFor(sc, s'.cache, s'.store, k)
  {
    BoardAfterTaskWrite(r, s, Put(e, changes), k);
    OneMoreTask(s.cache, e);
  }
}
