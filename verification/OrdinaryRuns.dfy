/** Runs that write no tag and no column: whatever they do to tasks and to
    everything else, and whatever happens outside the cache. */
module OrdinaryRuns {
  import opened Json
  import opened EntityCache
  import opened Watcher
  import opened EventQueue
  import opened TaskLists
  import opened Convergence
  import opened Delivery
  import opened Quiescence
  import opened Registry
  import opened StaleReads

  ghost predicate OrdinaryAction(a: Action) {
    && (a.Put? ==> a.e.kind != "tag" && a.e.kind != "column")
    && (a.Remove? ==> a.key.kind != "tag" && a.key.kind != "column")
  }

  ghost predicate Ordinary(run: seq<Action>) {
    forall i :: 0 <= i < |run| ==> OrdinaryAction(run[i])
  }

  /** The body tags of a task follow the tag names alone. */
  ghost predicate TagsFollowNames(sc: Schema) {
    forall f, u: Surroundings, v: Surroundings :: u.tagNames == v.tagNames ==>
      GetStringList(f + sc.derive("task", f, u), "tags") == GetStringList(f + sc.derive("task", f, v), "tags")
  }

  /** An ordinary step leaves the tag names and the outer columns. */
  lemma OrdinaryAround(sc: Schema, s: System, a: Action)
    requires OrdinaryAction(a) && (a.Deliver? ==> s.queue != [])
    ensures var s' := Step(sc, s, a);
            var u, v := Around(Now(sc, s), s.cache), Around(Now(sc, s'), s'.cache);
            && u.tagNames == v.tagNames && u.first == v.first && u.terminal == v.terminal
            && (!a.Elsewhere? ==> u.outside == v.outside)
  {
    if a.Put? { OuterUnmoved(Now(sc, s), s.cache, a.e, Key("", "")); }
    if a.Remove? { OuterUnmoved(Now(sc, s), s.cache, Entity("", "", map[]), a.key); }
  }

  /** The five fields of a task read alike under the same tag names and the same
      terminal column, whatever is outside. */
  lemma FiveFollowNames(sc: Schema, c: Cache, u: Surroundings, v: Surroundings, k: Key)
    requires WellFormed(sc) && TagsFollowNames(sc) && Has(c, k) && k.kind == "task"
    requires u.tagNames == v.tagNames && u.terminal == v.terminal
    ensures FiveUnder(sc, c, u, k) == FiveUnder(sc, c, v, k)
  {
    FiveStayMeans(sc, c, u, v, k);
    FindKey(c, k);
    assert BodyTags(Reading(sc, c, u, k)) == BodyTags(Reading(sc, c, v, k));
  }

  lemma {:induction false} OrdinaryFiveCalm(sc: Schema, s: System, run: seq<Action>, k: Key)
    requires WellFormed(sc) && TagsFollowNames(sc) && Legal(sc, s, run) && Ordinary(run)
    ensures FiveCalmRun(sc, s, run, k)
    decreases |run|
  {
    if run != [] {
      var s' := Step(sc, s, run[0]);
      OrdinaryAround(sc, s, run[0]);
      if k.kind == "task" && Has(s'.cache, k) {
        FiveFollowNames(sc, s'.cache, Around(Now(sc, s), s.cache), Around(Now(sc, s'), s'.cache), k);
      }
      OrdinaryFiveCalm(sc, s', run[1..], k);
    }
  }

  // ---- what changes outside -------------------------------------------------------------------

  /** The changes outside the cache leave the own fields of `k` alone. */
  ghost predicate OutsideCalm(sc: Schema, s: System, run: seq<Action>, k: Key)
    requires Legal(sc, s, run)
    decreases |run|
  {
    run == [] ||
    ((run[0].Elsewhere? ==> OwnCalm(sc, s, run[0], k)) && OutsideCalm(sc, Step(sc, s, run[0]), run[1..], k))
  }

  /** They do since some moment at which an event of `k` waited: what a write of
      `k` itself changed outside before it does not count. */
  ghost predicate OutsideSince(sc: Schema, s: System, run: seq<Action>, k: Key)
    requires Legal(sc, s, run)
    decreases |run|
  {
    (Pending(s.queue, k) && OutsideCalm(sc, s, run, k)) ||
    (run != [] && OutsideSince(sc, Step(sc, s, run[0]), run[1..], k))
  }

  lemma OrdinaryOwnCalm(sc: Schema, s: System, a: Action, k: Key)
    requires Local(sc) && k.kind != "board" && OrdinaryAction(a) && (a.Deliver? ==> s.queue != [])
    requires !a.Elsewhere? || k.kind != "task"
    ensures OwnCalm(sc, s, a, k)
  {
    OrdinaryAround(sc, s, a);
  }

  lemma {:induction false} OrdinaryOwnCalmRun(sc: Schema, s: System, run: seq<Action>, k: Key)
    requires Local(sc) && k.kind != "board" && Legal(sc, s, run) && Ordinary(run)
    requires k.kind != "task" || OutsideCalm(sc, s, run, k)
    ensures OwnCalmRun(sc, s, run, k)
    decreases |run|
  {
    if run != [] {
      if !run[0].Elsewhere? || k.kind != "task" { OrdinaryOwnCalm(sc, s, run[0], k); }
      OrdinaryOwnCalmRun(sc, Step(sc, s, run[0]), run[1..], k);
    }
  }

  lemma {:induction false} OrdinaryOwnSince(sc: Schema, s: System, run: seq<Action>, k: Key)
    requires Local(sc) && k.kind != "board" && Legal(sc, s, run) && Ordinary(run) && OutsideSince(sc, s, run, k)
    ensures OwnSince(sc, s, run, k)
    decreases |run|
  {
    if Pending(s.queue, k) && OutsideCalm(sc, s, run, k) {
      OrdinaryOwnCalmRun(sc, s, run, k);
    } else {
      OrdinaryOwnSince(sc, Step(sc, s, run[0]), run[1..], k);
    }
  }

  /** Over every run that writes no tag and no column, with any changes outside:
      whenever the queue is empty, every live task's five fields are fresh; every
      entity but tasks and the board holds all that a fresh read finds; and so does
      a task whose own derived fields nothing outside has moved since some moment
      at which its own event waited, or since the start. */
  lemma OrdinaryConvergence(sc: Schema, s: System, run: seq<Action>, k: Key)
    requires WellFormed(sc) && Local(sc) && TagsFollowNames(sc) && Initial(sc, s) && Legal(sc, s, run) && Ordinary(run)
    requires After(sc, s, run).queue == []
    ensures var t := After(sc, s, run);
            && (Has(t.cache, k) && k.kind == "task" ==>
                  FiveHeld(Now(sc, t), t.cache, t.store, Around(Now(sc, t), t.cache), k))
            && (k.kind != "task" && k.kind != "board" ==> HeldFor(Now(sc, t), t.cache, t.store, k))
            && (k.kind == "task" && (OutsideCalm(sc, s, run, k) || OutsideSince(sc, s, run, k)) ==>
                  HeldFor(Now(sc, t), t.cache, t.store, k))
  {
    OrdinaryFiveCalm(sc, s, run, k);
    QuiescentConvergence(sc, s, run, k);
    if k.kind != "board" {
      if k.kind != "task" || OutsideCalm(sc, s, run, k) { OrdinaryOwnCalmRun(sc, s, run, k); }
      if OutsideSince(sc, s, run, k) { OrdinaryOwnSince(sc, s, run, k); }
    }
  }

  /** The same of the shipped registry. */
  lemma KanbanConvergence(r: Rules, s: System, run: seq<Action>, k: Key)
    requires var sc := KanbanSchema(r, 0);
             Initial(sc, s) && Legal(sc, s, run) && Ordinary(run) && After(sc, s, run).queue == []
    ensures var sc := KanbanSchema(r, 0);
            var t := After(sc, s, run);
            && (Has(t.cache, k) && k.kind == "task" ==>
                  FiveHeld(Now(sc, t), t.cache, t.store, Around(Now(sc, t), t.cache), k))
            && (k.kind != "task" && k.kind != "board" ==> HeldFor(Now(sc, t), t.cache, t.store, k))
            && (k.kind == "task" && (OutsideCalm(sc, s, run, k) || OutsideSince(sc, s, run, k)) ==>
                  HeldFor(Now(sc, t), t.cache, t.store, k))
  {
    KanbanWellFormed(r, 0);
    KanbanTags(r, 0);
    OrdinaryConvergence(KanbanSchema(r, 0), s, run, k);
  }

  lemma KanbanTags(r: Rules, outside: nat)
    ensures TagsFollowNames(KanbanSchema(r, outside))
  {
    var sc := KanbanSchema(r, outside);
    forall f, u: Surroundings, v: Surroundings | u.tagNames == v.tagNames
      ensures GetStringList(f + sc.derive("task", f, u), "tags") == GetStringList(f + sc.derive("task", f, v), "tags")
    {
      TagsRead(r, f, u);
      TagsRead(r, f, v);
    }
  }

  /** An edit as the program makes it: the entity's change log grows, the cache
      and the queue follow, the bridge resolves it. From every state the invariant
      allows with nothing waiting, the edited entity ends with all that a fresh
      read finds. */
  lemma LoggedEditConverges(sc: Schema, s: System, x: nat, e: Entity, changes: seq<FieldChange>)
    requires WellFormed(sc) && Inv(sc, s) && s.queue == []
    requires Enabled(sc, s, Put(e, changes)) && !(Has(s.cache, e.KeyOf()) && FieldsIn(s.cache, e.KeyOf()) == e.fields)
    ensures var run := [Elsewhere(x), Put(e, changes), Deliver];
            Legal(sc, s, run) &&
            var t := After(sc, s, run);
            t.queue == [] && HeldFor(Now(sc, t), t.cache, t.store, e.KeyOf())
  {
    var k, run := e.KeyOf(), [Elsewhere(x), Put(e, changes), Deliver];
    var s1 := Step(sc, s, Elsewhere(x));
    var s2 := Step(sc, s1, Put(e, changes));
    var t := Step(sc, s2, Deliver);
    assert run[1..] == [Put(e, changes), Deliver] && run[1..][1..] == [Deliver] && run[1..][1..][1..] == [];
    assert s2.queue == [EntityChanged(e.kind, e.id, changes)];
    assert Legal(sc, s2, [Deliver]) && Legal(sc, s1, run[1..]) && Legal(sc, s, run);
    assert After(sc, s2, [Deliver]) == t && After(sc, s1, run[1..]) == t && After(sc, s, run) == t;
    StepKeepsInv(sc, s, Elsewhere(x));
    StepKeepsInv(sc, s1, Put(e, changes));
    StepKeepsInv(sc, s2, Deliver);
    assert Concerns(s2.queue[0], k) && Pending(s2.queue, k);
    StepKeepsReading(sc, s2, Deliver, k);
    DeliverIsCalm(sc, s2, k);
    assert t.queue == [] by { DeliveredNow(sc, s2); }
    StillHeld(sc, t, k);
  }

  lemma DeliverIsCalm(sc: Schema, s: System, k: Key)
    requires s.queue != []
    ensures OwnCalm(sc, s, Deliver, k) && FiveCalm(sc, s, Deliver, k)
  {
    StepAdvances(sc, s);
    SameMoment(sc, s, Step(sc, s, Deliver));
  }

  lemma SameMoment(sc: Schema, s: System, s': System)
    requires s'.cache == s.cache && s'.outside == s.outside
    ensures Around(Now(sc, s'), s'.cache) == Around(Now(sc, s), s.cache)
  {
  }
}
