/** A remote copy of the board's entities that knows nothing but the event
    stream: what one watch event does to it, and what the replay of a fan-out
    amounts to. */
module Replica {
  import opened Json
  import opened EntityCache
  import opened TaskGraph
  import opened Watcher

  type Store = map<Key, Fields>

  function FieldsOf(s: Store, k: Key): Fields {
    if k in s then s[k] else map[]
  }

  /** Created replaces, field-changed patches or upserts (an empty change list
      is ignored), removed deletes, attachments change nothing. */
  function ApplyEvent(s: Store, evt: WatchEvent): Store {
    match evt
    case EntityCreated(kind, id, fields) => s[Key(kind, id) := fields]
    case EntityFieldChanged(kind, id, changes) =>
      if changes == [] then s else s[Key(kind, id) := Patch(FieldsOf(s, Key(kind, id)), changes)]
    case EntityRemoved(kind, id) => s - {Key(kind, id)}
    case AttachmentChanged(_, _, _) => s
  }

  function Replay(s: Store, evts: seq<WatchEvent>): Store {
    if evts == [] then s
    else ApplyEvent(Replay(s, evts[..|evts| - 1]), evts[|evts| - 1])
  }

  lemma ReplayAppend(s: Store, evts: seq<WatchEvent>, evt: WatchEvent)
    ensures Replay(s, evts + [evt]) == ApplyEvent(Replay(s, evts), evt)
  {
    assert (evts + [evt])[..|evts + [evt]| - 1] == evts;
  }

  lemma {:induction false} ReplayConcat(s: Store, a: seq<WatchEvent>, b: seq<WatchEvent>)
    ensures Replay(s, a + b) == Replay(Replay(s, a), b)
    decreases |b|
  {
    if b == [] {
      assert a + b == a;
    } else {
      var n := |b| - 1;
      assert (a + b)[..|a + b| - 1] == a + b[..n];
      assert (a + b)[|a + b| - 1] == b[n];
      ReplayConcat(s, a, b[..n]);
    }
  }

  lemma ReplaySplit(s: Store, out: seq<WatchEvent>)
    requires out != []
    ensures Replay(s, out) == Replay(ApplyEvent(s, out[0]), out[1..])
    ensures Replay(ApplyEvent(s, out[0]), []) == ApplyEvent(s, out[0])
  {
    assert out == [out[0]] + out[1..];
    ReplayConcat(s, [out[0]], out[1..]);
    assert [out[0]][..0] == [];
  }

  // ---- the diff of two snapshots ----------------------------------------------

  lemma OneDiffFields(old_: Fields, new_: Fields, n: string, f: string, v: Value)
    ensures NamesField(OneDiff(old_, new_, n), f) <==> f == n && f in new_ && !(f in old_ && old_[f] == new_[f])
    ensures Assigned(OneDiff(old_, new_, n), f, v) == if NamesField(OneDiff(old_, new_, n), f) then new_[f] else v
  {
    var d := OneDiff(old_, new_, n);
    if d != [] {
      assert d[0].field == n && d[..0] == [];
      assert Assigned(d[..0], f, v) == v;
    }
  }

  lemma {:induction false} DiffToFields(old_: Fields, new_: Fields, names: seq<string>, f: string, v: Value)
    ensures NamesField(DiffTo(old_, new_, names), f) <==>
            f in names && f in new_ && !(f in old_ && old_[f] == new_[f])
    ensures NamesField(DiffTo(old_, new_, names), f) ==> Assigned(DiffTo(old_, new_, names), f, v) == new_[f]
    ensures !NamesField(DiffTo(old_, new_, names), f) ==> Assigned(DiffTo(old_, new_, names), f, v) == v
  {
    if names == [] {
    } else {
      var m := |names| - 1;
      var n := names[m];
      DiffToFields(old_, new_, names[..m], f, v);
      var init := DiffTo(old_, new_, names[..m]);
      assert names == names[..m] + [n];
      NamesConcat(init, OneDiff(old_, new_, n), f);
      AssignedConcat(init, OneDiff(old_, new_, n), f, v);
      OneDiffFields(old_, new_, n, f, Assigned(init, f, v));
    }
  }

  lemma SnapshotIsFive(e: Entity, all: seq<Entity>, terminal: string)
    ensures SnapshotOf(EnrichTask(e, all, terminal).fields) == FiveOf(e, all, terminal)
  {
    FiveKeys(e, all, terminal);
  }

  /** Sending only the differences from a truthful baseline is enough: the
      patched copy holds every current field, and no other field moved. */
  lemma DiffSuffices(held: Fields, baseline: Fields, current: Fields, f: string)
    requires forall n :: n in current ==> IsFive(n)
    requires baseline == map[] || (forall n :: n in baseline ==> At(held, n) == baseline[n])
    ensures var changes := DiffTo(baseline, current, TASK_COMPUTED_FIELDS);
            && (f in current ==> At(Patch(held, changes), f) == current[f])
            && (f !in current ==> At(Patch(held, changes), f) == At(held, f))
  {
    var changes := DiffTo(baseline, current, TASK_COMPUTED_FIELDS);
    PatchAt(held, changes, f);
    DiffToFields(baseline, current, TASK_COMPUTED_FIELDS, f, At(held, f));
  }

  // ---- what replaying a fan-out amounts to ---------------------------------------

  function TaskKey(id: string): Key { Key("task", id) }

  /** The five fields of every listed task, by id. */
  function Fives(list: seq<Entity>, all: seq<Entity>, terminal: string): map<string, Fields> {
    if list == [] then map[]
    else
      var e := list[|list| - 1];
      Fives(list[..|list| - 1], all, terminal)[e.id := FiveOf(e, all, terminal)]
  }

  /** The replica's copy of one task after a fan-out has visited it. */
  function AfterVisit(s: Store, id: string, snaps: map<string, Fields>, five: Fields): Fields {
    Patch(FieldsOf(s, TaskKey(id)), DiffTo(Baseline(snaps, id), five, TASK_COMPUTED_FIELDS))
  }

  /** Every task in `fives` but the trigger is patched from its baseline; no
      other entity moves. */
  ghost predicate FanOutStore(fives: map<string, Fields>, trigger: string, snaps: map<string, Fields>,
                              s: Store, s': Store) {
    && (forall id :: id != trigger && id in fives ==>
          FieldsOf(s', TaskKey(id)) == AfterVisit(s, id, snaps, fives[id]))
    && (forall k: Key :: !(k.kind == "task" && k.id != trigger && k.id in fives) ==>
          (k in s' <==> k in s) && FieldsOf(s', k) == FieldsOf(s, k))
    && (forall k: Key :: k in s ==> k in s')
  }

  lemma {:induction false} FivesListed(list: seq<Entity>, all: seq<Entity>, terminal: string, id: string)
    ensures id in Fives(list, all, terminal) <==> ListsId(list, id)
  {
    if list != [] {
      var n := |list| - 1;
      FivesListed(list[..n], all, terminal, id);
      ListsIdLast(list, id);
    }
  }

  lemma ListsIdLast(list: seq<Entity>, id: string)
    requires list != []
    ensures ListsId(list, id) <==> ListsId(list[..|list| - 1], id) || list[|list| - 1].id == id
  {
    var n := |list| - 1;
    assert list[n].id == id ==> ListsId(list, id);
    if ListsId(list[..n], id) {
      var i :| 0 <= i < n && list[..n][i].id == id;
      assert list[i].id == id;
    }
    if ListsId(list, id) && list[n].id != id {
      var i :| 0 <= i < |list| && list[i].id == id;
      assert list[..n][i].id == id;
    }
  }

  lemma LastIsNew(list: seq<Entity>)
    requires list != [] && UniqueIds(list)
    ensures !ListsId(list[..|list| - 1], list[|list| - 1].id)
  {
    var n := |list| - 1;
    forall i | 0 <= i < n ensures list[..n][i].id != list[n].id {
      assert list[i].id != list[n].id;
    }
  }

  lemma FivesLast(list: seq<Entity>, all: seq<Entity>, terminal: string, id: string)
    requires list != []
    ensures var n := |list| - 1;
            && list[n].id in Fives(list, all, terminal)
            && Fives(list, all, terminal)[list[n].id] == FiveOf(list[n], all, terminal)
            && (id != list[n].id && id in Fives(list[..n], all, terminal) ==>
                  id in Fives(list, all, terminal) &&
                  Fives(list, all, terminal)[id] == Fives(list[..n], all, terminal)[id])
  {
  }

  lemma {:induction false} FivesAt(list: seq<Entity>, all: seq<Entity>, terminal: string, i: nat)
    requires UniqueIds(list) && i < |list|
    ensures list[i].id in Fives(list, all, terminal)
    ensures Fives(list, all, terminal)[list[i].id] == FiveOf(list[i], all, terminal)
    decreases |list|
  {
    var n := |list| - 1;
    FivesLast(list, all, terminal, list[i].id);
    if i < n {
      UniqueInit(list);
      Earlier(list, i);
      FivesAt(list[..n], all, terminal, i);
    }
  }

  lemma Earlier(list: seq<Entity>, i: nat)
    requires UniqueIds(list) && i < |list| - 1
    ensures list[..|list| - 1][i] == list[i] && list[i].id != list[|list| - 1].id
  {
  }

  lemma UniqueInit(list: seq<Entity>)
    requires list != [] && UniqueIds(list)
    ensures UniqueIds(list[..|list| - 1])
  {
  }

  /** Replaying the one event a visit may add. */
  lemma VisitReplay(id: string, five: Fields, trigger: string, s: Store, r: FanOutResult)
    ensures OneVisit(id, five, trigger, r.snaps, Replay(s, r.events), Replay(s, Visit(id, five, trigger, r).events))
  {
    var changes := DiffTo(Baseline(r.snaps, id), five, TASK_COMPUTED_FIELDS);
    if id != trigger && changes != [] {
      ReplayAppend(s, r.events, EntityFieldChanged("task", id, changes));
    }
  }

  /** From `s1` to `s2` at most the copy of task `id0` moved, as its visit says. */
  ghost predicate OneVisit(id0: string, five: Fields, trigger: string, snaps: map<string, Fields>, s1: Store, s2: Store) {
    && (id0 == trigger ==> s2 == s1)
    && (id0 != trigger ==> FieldsOf(s2, TaskKey(id0)) == AfterVisit(s1, id0, snaps, five))
    && (forall k :: k != TaskKey(id0) ==> (k in s2 <==> k in s1) && FieldsOf(s2, k) == FieldsOf(s1, k))
    && (forall k :: k in s1 ==> k in s2)
  }

  lemma VisitedTask(id0: string, five: Fields, fives: map<string, Fields>, trigger: string,
                    snaps: map<string, Fields>, s: Store, s1: Store, s2: Store, id: string)
    requires id0 !in fives && FanOutStore(fives, trigger, snaps, s, s1) && OneVisit(id0, five, trigger, snaps, s1, s2)
    requires id != trigger && (id == id0 || id in fives)
    ensures FieldsOf(s2, TaskKey(id)) == AfterVisit(s, id, snaps, if id == id0 then five else fives[id])
  {
    if id == id0 {
      assert FieldsOf(s1, TaskKey(id0)) == FieldsOf(s, TaskKey(id0));
    } else {
      assert TaskKey(id) != TaskKey(id0);
    }
  }

  lemma UnvisitedKey(id0: string, five: Fields, fives: map<string, Fields>, trigger: string,
                     snaps: map<string, Fields>, s: Store, s1: Store, s2: Store, k: Key)
    requires id0 !in fives && FanOutStore(fives, trigger, snaps, s, s1) && OneVisit(id0, five, trigger, snaps, s1, s2)
    requires !(k.kind == "task" && k.id != trigger && (k.id == id0 || k.id in fives))
    ensures (k in s2 <==> k in s) && FieldsOf(s2, k) == FieldsOf(s, k)
  {
    if k == TaskKey(id0) { assert id0 == trigger; }
  }

  lemma VisitStore(id0: string, five: Fields, fives: map<string, Fields>, trigger: string,
                   snaps: map<string, Fields>, s: Store, s1: Store, s2: Store)
    requires id0 !in fives && FanOutStore(fives, trigger, snaps, s, s1) && OneVisit(id0, five, trigger, snaps, s1, s2)
    ensures FanOutStore(fives[id0 := five], trigger, snaps, s, s2)
  {
    var fives' := fives[id0 := five];
    forall id | id != trigger && id in fives'
      ensures FieldsOf(s2, TaskKey(id)) == AfterVisit(s, id, snaps, fives'[id])
    {
      VisitedTask(id0, five, fives, trigger, snaps, s, s1, s2, id);
    }
    forall k: Key | !(k.kind == "task" && k.id != trigger && k.id in fives')
      ensures (k in s2 <==> k in s) && FieldsOf(s2, k) == FieldsOf(s, k)
    {
      UnvisitedKey(id0, five, fives, trigger, snaps, s, s1, s2, k);
    }
  }

  /** A visit depends on the task through its five fields only. */
  lemma VisitIs(e: Entity, all: seq<Entity>, terminal: string, trigger: string, r: FanOutResult)
    ensures VisitTask(e, all, terminal, trigger, r) == Visit(e.id, FiveOf(e, all, terminal), trigger, r)
  {
    SnapshotIsFive(e, all, terminal);
  }

  /** Earlier visits of a fan-out leave the baseline of a later task alone. */
  lemma BaselineOutside(snaps: map<string, Fields>, fives: map<string, Fields>, id: string, five: Fields,
                        trigger: string, s1: Store, s2: Store)
    requires id !in fives && OneVisit(id, five, trigger, snaps + fives, s1, s2)
    ensures OneVisit(id, five, trigger, snaps, s1, s2)
  {
    assert Baseline(snaps + fives, id) == Baseline(snaps, id);
  }

  lemma VisitSnapshots(id: string, five: Fields, trigger: string, snaps: map<string, Fields>, r: FanOutResult,
                       fives: map<string, Fields>)
    requires r.snaps == snaps + fives
    ensures Visit(id, five, trigger, r).snaps == snaps + fives[id := five]
  {
  }

  lemma FanOutStep(id: string, five: Fields, trigger: string, snaps: map<string, Fields>,
                   s: Store, r: FanOutResult, fives: map<string, Fields>)
    requires id !in fives && r.snaps == snaps + fives
    requires FanOutStore(fives, trigger, snaps, s, Replay(s, r.events))
    ensures FanOutStore(fives[id := five], trigger, snaps, s, Replay(s, Visit(id, five, trigger, r).events))
  {
    var s1, s2 := Replay(s, r.events), Replay(s, Visit(id, five, trigger, r).events);
    VisitReplay(id, five, trigger, s, r);
    BaselineOutside(snaps, fives, id, five, trigger, s1, s2);
    VisitStore(id, five, fives, trigger, snaps, s, s1, s2);
  }

  /** A fan-out's snapshots and replay, in terms of the five fields it saw. */
  lemma {:induction false} FanOutReplay(list: seq<Entity>, all: seq<Entity>, terminal: string, trigger: string,
                                        snaps: map<string, Fields>, s: Store)
    requires UniqueIds(list)
    ensures var r := FanOut(list, all, terminal, trigger, snaps);
            && r.snaps == snaps + Fives(list, all, terminal)
            && FanOutStore(Fives(list, all, terminal), trigger, snaps, s, Replay(s, r.events))
  {
    if list != [] {
      var n := |list| - 1;
      FanOutReplay(list[..n], all, terminal, trigger, snaps, s);
      LastIsNew(list);
      FivesListed(list[..n], all, terminal, list[n].id);
      var r, fives := FanOut(list[..n], all, terminal, trigger, snaps), Fives(list[..n], all, terminal);
      VisitIs(list[n], all, terminal, trigger, r);
      VisitSnapshots(list[n].id, FiveOf(list[n], all, terminal), trigger, snaps, r, fives);
      FanOutStep(list[n].id, FiveOf(list[n], all, terminal), trigger, snaps, s, r, fives);
    }
  }
}
