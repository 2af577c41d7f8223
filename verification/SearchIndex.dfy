/** The search index that follows the same event stream as the frontend store,
    keyed by id alone. */
module SearchIndex {
  import opened Json
  import opened EntityCache
  import opened TaskGraph
  import opened Watcher
  import opened Replica
  import opened Registry

  type Index = map<string, Entity>

  /** What one watch event does to the indexed entities. */
  function IndexEvent(m: Index, evt: WatchEvent): Index {
    match evt
    case EntityCreated(kind, id, fields) => m[id := Entity(kind, id, fields)]
    case EntityFieldChanged(kind, id, changes) =>
      if changes == [] then m
      else if id in m then m[id := m[id].(fields := Patch(m[id].fields, changes))]
      else m[id := Entity(kind, id, Patch(map[], changes))]
    case EntityRemoved(_, id) => m - {id}
    case AttachmentChanged(_, _, _) => m
  }

  function IndexReplay(m: Index, evts: seq<WatchEvent>): Index {
    if evts == [] then m else IndexEvent(IndexReplay(m, evts[..|evts| - 1]), evts[|evts| - 1])
  }

  class EntitySearchIndex {
    var entities: Index
    var staleIds: set<string>

    constructor ()
      ensures entities == map[] && staleIds == {}
    {
      entities := map[];
      staleIds := {};
    }

    method Add(e: Entity)
      modifies this
      ensures entities == old(entities)[e.id := e] && staleIds == old(staleIds) + {e.id}
    {
      staleIds := staleIds + {e.id};
      entities := entities[e.id := e];
    }

    method Remove(id: string)
      modifies this
      ensures entities == old(entities) - {id} && staleIds == old(staleIds) - {id}
    {
      entities := entities - {id};
      staleIds := staleIds - {id};
    }

    /** Sets each given field on the existing entity, or makes a new one. */
    method MergeFields(kind: string, id: string, fields: Fields)
      modifies this
      ensures staleIds == old(staleIds) + {id}
      ensures entities == old(entities)[id :=
                if id in old(entities) then old(entities)[id].(fields := old(entities)[id].fields + fields)
                else Entity(kind, id, fields)]
    {
      var base := if id in entities then entities[id] else Entity(kind, id, map[]);
      var merged := SetAll(base, fields);
      assert map[] + fields == fields;
      if id in entities {
        entities := entities[id := merged];
        staleIds := staleIds + {id};
      } else {
        Add(merged);
      }
    }
  }

  /** Sets the fields one by one, in the map's unspecified order. */
  method SetAll(e: Entity, fields: Fields) returns (out: Entity)
    ensures out == e.(fields := e.fields + fields)
  {
    out := e;
    var todo := fields.Keys;
    while todo != {}
      invariant todo <= fields.Keys
      invariant out.kind == e.kind && out.id == e.id
      invariant out.fields == e.fields + (map n | n in fields && n !in todo :: fields[n])
      decreases todo
    {
      var n :| n in todo;
      out := out.(fields := out.fields[n := fields[n]]);
      todo := todo - {n};
    }
    assert (map n | n in fields && n !in todo :: fields[n]) == fields;
  }

  lemma {:induction false} CollectedPatch(m: Fields, changes: seq<FieldChange>)
    ensures m + Patch(map[], changes) == Patch(m, changes)
  {
    if changes != [] { CollectedPatch(m, changes[..|changes| - 1]); }
  }

  /** `sync_search_index` */
  method SyncSearchIndex(idx: EntitySearchIndex, evt: WatchEvent)
    modifies idx
    ensures idx.entities == IndexEvent(old(idx.entities), evt)
    ensures evt.AttachmentChanged? ==> idx.staleIds == old(idx.staleIds)
  {
    match evt {
      case EntityCreated(kind, id, fields) =>
        var e := SetAll(Entity(kind, id, map[]), fields);
        assert map[] + fields == fields;
        idx.Add(e);
      case EntityFieldChanged(kind, id, changes) =>
        if changes != [] {
          var fieldsMap := Patch(map[], changes);
          if id in idx.entities { CollectedPatch(idx.entities[id].fields, changes); }
          idx.MergeFields(kind, id, fieldsMap);
        }
      case EntityRemoved(_, id) =>
        idx.Remove(id);
      case AttachmentChanged(_, _, _) =>
    }
  }

  // ---- lockstep with the frontend store -------------------------------------------

  /** The index holds exactly the store's entities, each under its id. */
  ghost predicate Mirrors(m: Index, s: Store) {
    && (forall id :: id in m ==> m[id].id == id && m[id].KeyOf() in s && s[m[id].KeyOf()] == m[id].fields)
    && (forall k: Key :: k in s ==> k.id in m && m[k.id].kind == k.kind)
  }

  /** Ids are unique across entity types: `kindOf` gives each id its type. */
  ghost predicate OneKind(kindOf: string -> string, evt: WatchEvent) {
    evt.AttachmentChanged? || evt.kind == kindOf(evt.id)
  }

  ghost predicate KindsOf(kindOf: string -> string, s: Store) {
    forall k: Key :: k in s ==> k.kind == kindOf(k.id)
  }

  lemma LockstepEvent(kindOf: string -> string, m: Index, s: Store, evt: WatchEvent)
    requires Mirrors(m, s) && KindsOf(kindOf, s) && OneKind(kindOf, evt)
    ensures Mirrors(IndexEvent(m, evt), ApplyEvent(s, evt)) && KindsOf(kindOf, ApplyEvent(s, evt))
  {
    var m', s' := IndexEvent(m, evt), ApplyEvent(s, evt);
    if !evt.AttachmentChanged? {
      var k0 := Key(evt.kind, evt.id);
      assert evt.id in m ==> m[evt.id].KeyOf() in s && m[evt.id].kind == kindOf(evt.id);
      assert evt.id in m <==> k0 in s;
      forall id | id in m' ensures m'[id].id == id && m'[id].KeyOf() in s' && s'[m'[id].KeyOf()] == m'[id].fields {
        if id != evt.id { assert m'[id] == m[id] && m[id].KeyOf() != k0; }
      }
      forall k: Key | k in s' ensures k.id in m' && m'[k.id].kind == k.kind {
        if k != k0 {
          assert k in s && k.kind == kindOf(k.id);
          assert k.id != evt.id;
        }
      }
    }
  }

  /** Lockstep: folding the events into the index yields the frontend store's
      replay of the same events. */
  lemma {:induction false} Lockstep(kindOf: string -> string, m: Index, s: Store, evts: seq<WatchEvent>)
    requires Mirrors(m, s) && KindsOf(kindOf, s)
    requires forall i :: 0 <= i < |evts| ==> OneKind(kindOf, evts[i])
    ensures Mirrors(IndexReplay(m, evts), Replay(s, evts)) && KindsOf(kindOf, Replay(s, evts))
  {
    if evts != [] {
      var n := |evts| - 1;
      assert forall i :: 0 <= i < n ==> evts[..n][i] == evts[i];
      Lockstep(kindOf, m, s, evts[..n]);
      LockstepEvent(kindOf, IndexReplay(m, evts[..n]), Replay(s, evts[..n]), evts[n]);
    }
  }

  // ---- lockstep from any start -----------------------------------------------------

  /** One entity's fields in a copy, if it is there. */
  function CopyIn(m: Index, id: string): Option<Fields> {
    if id in m then Some(m[id].fields) else None
  }

  function StoreCopy(s: Store, k: Key): Option<Fields> {
    if k in s then Some(s[k]) else None
  }

  function Held(copy: Option<Fields>): Fields {
    match copy
    case Some(f) => f
    case None => map[]
  }

  predicate About(evt: WatchEvent, k: Key) {
    !evt.AttachmentChanged? && Key(evt.kind, evt.id) == k
  }

  function CopyAfter(copy: Option<Fields>, evts: seq<WatchEvent>, k: Key): Option<Fields> {
    if evts == [] then copy
    else
      var before, last := CopyAfter(copy, evts[..|evts| - 1], k), evts[|evts| - 1];
      if !About(last, k) then before
      else
        match last
        case EntityCreated(_, _, fields) => Some(fields)
        case EntityFieldChanged(_, _, changes) => if changes == [] then before else Some(Patch(Held(before), changes))
        case EntityRemoved(_, _) => None
        case AttachmentChanged(_, _, _) => before
  }

  /** The id of `k` is used for its own type only. */
  ghost predicate OwnId(m: Index, evts: seq<WatchEvent>, k: Key) {
    && (k.id in m ==> m[k.id].kind == k.kind)
    && (forall i :: 0 <= i < |evts| && !evts[i].AttachmentChanged? && evts[i].id == k.id ==> evts[i].kind == k.kind)
  }

  lemma {:induction false} IndexCopy(m: Index, evts: seq<WatchEvent>, k: Key)
    requires OwnId(m, evts, k)
    ensures CopyIn(IndexReplay(m, evts), k.id) == CopyAfter(CopyIn(m, k.id), evts, k)
  {
    if evts != [] {
      var n := |evts| - 1;
      assert forall i :: 0 <= i < n ==> evts[..n][i] == evts[i];
      IndexCopy(m, evts[..n], k);
    }
  }

  lemma {:induction false} StoreCopyAfter(s: Store, evts: seq<WatchEvent>, k: Key)
    ensures StoreCopy(Replay(s, evts), k) == CopyAfter(StoreCopy(s, k), evts, k)
  {
    if evts != [] { StoreCopyAfter(s, evts[..|evts| - 1], k); }
  }

  /** A Created or Removed of `k` occurs. */
  predicate Replaced(evts: seq<WatchEvent>, k: Key) {
    evts != [] && ((About(evts[|evts| - 1], k) && !evts[|evts| - 1].EntityFieldChanged?) || Replaced(evts[..|evts| - 1], k))
  }

  /** A field change of `k` with any change in it occurs. */
  predicate Touched(evts: seq<WatchEvent>, k: Key) {
    evts != [] && ((About(evts[|evts| - 1], k) && evts[|evts| - 1].EntityFieldChanged? && evts[|evts| - 1].changes != []) ||
                   Touched(evts[..|evts| - 1], k))
  }

  /** A field change of `k` that names `f` occurs. */
  predicate Names(evts: seq<WatchEvent>, k: Key, f: string) {
    evts != [] && ((About(evts[|evts| - 1], k) && evts[|evts| - 1].EntityFieldChanged? && NamesField(evts[|evts| - 1].changes, f)) ||
                   Names(evts[..|evts| - 1], k, f))
  }

  predicate SameField(a: Fields, b: Fields, f: string) {
    (f in a <==> f in b) && (f in a ==> a[f] == b[f])
  }

  lemma PatchSame(a: Fields, b: Fields, changes: seq<FieldChange>, f: string)
    ensures SameField(Patch(a, changes), Patch(b, changes), f) <==> NamesField(changes, f) || SameField(a, b, f)
  {
    PatchAt(a, changes, f);
    PatchAt(b, changes, f);
    AssignedUnnamed(changes, f, At(a, f));
    AssignedUnnamed(changes, f, At(b, f));
  }

  lemma {:induction false} ReplacedMeet(a: Option<Fields>, b: Option<Fields>, evts: seq<WatchEvent>, k: Key)
    requires Replaced(evts, k)
    ensures CopyAfter(a, evts, k) == CopyAfter(b, evts, k)
  {
    var n := |evts| - 1;
    if !(About(evts[n], k) && !evts[n].EntityFieldChanged?) { ReplacedMeet(a, b, evts[..n], k); }
  }

  lemma {:induction false} PresentAfter(a: Option<Fields>, evts: seq<WatchEvent>, k: Key)
    requires !Replaced(evts, k)
    ensures CopyAfter(a, evts, k).Some? <==> a.Some? || Touched(evts, k)
  {
    if evts != [] { PresentAfter(a, evts[..|evts| - 1], k); }
  }

  lemma {:induction false} FieldMeets(a: Option<Fields>, b: Option<Fields>, evts: seq<WatchEvent>, k: Key, f: string)
    requires !Replaced(evts, k)
    ensures SameField(Held(CopyAfter(a, evts, k)), Held(CopyAfter(b, evts, k)), f) <==>
            Names(evts, k, f) || SameField(Held(a), Held(b), f)
  {
    if evts != [] {
      var n := |evts| - 1;
      var x, y := CopyAfter(a, evts[..n], k), CopyAfter(b, evts[..n], k);
      FieldMeets(a, b, evts[..n], k, f);
      if About(evts[n], k) { PatchSame(Held(x), Held(y), evts[n].changes, f); }
    }
  }

  lemma SameCopy(a: Option<Fields>, b: Option<Fields>)
    ensures a == b <==> (a.Some? <==> b.Some?) && forall f :: SameField(Held(a), Held(b), f)
  {
    if (a.Some? <==> b.Some?) && forall f :: SameField(Held(a), Held(b), f) {
      assert forall f :: f in Held(a) ==> SameField(Held(a), Held(b), f);
      assert forall f :: f in Held(b) ==> SameField(Held(a), Held(b), f);
      assert Held(a) == Held(b);
    }
  }

  /** From any two copies, the events bring them together exactly when they
      replace the entity, or touch it if only one copy has it and name every
      field the copies disagree on. */
  lemma CopiesMeet(a: Option<Fields>, b: Option<Fields>, evts: seq<WatchEvent>, k: Key)
    ensures CopyAfter(a, evts, k) == CopyAfter(b, evts, k) <==>
            Replaced(evts, k) ||
            (((a.Some? <==> b.Some?) || Touched(evts, k)) &&
             forall f :: Names(evts, k, f) || SameField(Held(a), Held(b), f))
  {
    if Replaced(evts, k) {
      ReplacedMeet(a, b, evts, k);
    } else {
      PresentAfter(a, evts, k);
      PresentAfter(b, evts, k);
      forall f ensures SameField(Held(CopyAfter(a, evts, k)), Held(CopyAfter(b, evts, k)), f) <==>
                       Names(evts, k, f) || SameField(Held(a), Held(b), f)
      {
        FieldMeets(a, b, evts, k, f);
      }
      SameCopy(CopyAfter(a, evts, k), CopyAfter(b, evts, k));
    }
  }

  /** Lockstep, exactly: whatever index and store start from, after any events
      they agree on an entity if and only if the events replaced it, or named
      every field they disagreed on (and touched it, if one of them lacked it). */
  lemma LockstepExactly(m: Index, s: Store, evts: seq<WatchEvent>, k: Key)
    requires OwnId(m, evts, k)
    ensures CopyIn(IndexReplay(m, evts), k.id) == StoreCopy(Replay(s, evts), k) <==>
            Replaced(evts, k) ||
            (((k.id in m <==> k in s) || Touched(evts, k)) &&
             forall f :: Names(evts, k, f) || SameField(Held(CopyIn(m, k.id)), FieldsOf(s, k), f))
  {
    IndexCopy(m, evts, k);
    StoreCopyAfter(s, evts, k);
    CopiesMeet(CopyIn(m, k.id), StoreCopy(s, k), evts, k);
    assert Held(StoreCopy(s, k)) == FieldsOf(s, k);
  }

  // ---- the index as it is loaded ------------------------------------------------------

  const INDEXED_KINDS: set<string> := {"task", "tag", "column", "actor", "board"}

  function LoadedUnder(sc: Schema, c: Cache, v: Surroundings): Index {
    if c == [] then map[]
    else
      var last, rest := c[|c| - 1], LoadedUnder(sc, c[..|c| - 1], v);
      if last.kind in INDEXED_KINDS then rest[last.id := ApplyCompute(sc, last, v)] else rest
  }

  /** `load_search_index`: five entity types, read without the task enrichment. */
  function LoadedIndex(sc: Schema, c: Cache): Index { LoadedUnder(sc, c, Around(sc, c)) }

  ghost predicate UniqueAcross(c: Cache) {
    forall i, j :: 0 <= i < j < |c| ==> c[i].id != c[j].id
  }

  lemma {:induction false} LoadedEntry(sc: Schema, c: Cache, v: Surroundings, i: nat)
    requires UniqueAcross(c) && i < |c|
    ensures c[i].id in LoadedUnder(sc, c, v) <==> c[i].kind in {"task", "tag", "column", "actor", "board"}
    ensures c[i].kind in {"task", "tag", "column", "actor", "board"} ==> LoadedUnder(sc, c, v)[c[i].id] == ApplyCompute(sc, c[i], v)
    decreases |c|
  {
    var n := |c| - 1;
    if i < n {
      assert c[..n][i] == c[i] && c[i].id != c[n].id;
      LoadedEntry(sc, c[..n], v, i);
    } else {
      LoadedOthers(sc, c[..n], v, c[n].id);
    }
  }

  lemma {:induction false} LoadedOthers(sc: Schema, c: Cache, v: Surroundings, id: string)
    requires forall i :: 0 <= i < |c| ==> c[i].id != id
    ensures id !in LoadedUnder(sc, c, v)
    decreases |c|
  {
    if c != [] { LoadedOthers(sc, c[..|c| - 1], v, id); }
  }

  /** The events name `f`, unless both copies hold it alike. */
  predicate Settled(read: Fields, full: Fields, evts: seq<WatchEvent>, k: Key, f: string) {
    SameField(read, full, f) || Names(evts, k, f)
  }

  lemma FiveSettled(read: Fields, full: Fields, evts: seq<WatchEvent>, k: Key)
    ensures (forall f :: IsFive(f) ==> Settled(read, full, evts, k, f)) <==>
            Settled(read, full, evts, k, "ready") && Settled(read, full, evts, k, "blocked_by") &&
            Settled(read, full, evts, k, "blocks") && Settled(read, full, evts, k, "virtual_tags") &&
            Settled(read, full, evts, k, "filter_tags")
  {
    forall f ensures IsFive(f) <==> f in {"virtual_tags", "filter_tags", "ready", "blocked_by", "blocks"} { FiveNames(f); }
  }

  /** A loaded task against a store that holds it enriched: they agree after any
      events exactly when the task was replaced, or each of its five cross-task
      fields was named that the loaded copy lacks or holds differently. */
  lemma LoadedTaskAgrees(sc: Schema, c: Cache, i: nat, s: Store, five: Fields, evts: seq<WatchEvent>)
    requires UniqueAcross(c) && i < |c| && c[i].kind == "task" && OwnId(LoadedIndex(sc, c), evts, c[i].KeyOf())
    requires forall n :: n in five <==> IsFive(n)
    requires var read := ApplyCompute(sc, c[i], Around(sc, c)).fields;
             c[i].KeyOf() in s && s[c[i].KeyOf()] == read + five
    ensures var read := ApplyCompute(sc, c[i], Around(sc, c)).fields;
            CopyIn(IndexReplay(LoadedIndex(sc, c), evts), c[i].id) == StoreCopy(Replay(s, evts), c[i].KeyOf()) <==>
            Replaced(evts, c[i].KeyOf()) ||
            forall f :: IsFive(f) ==> Settled(read, read + five, evts, c[i].KeyOf(), f)
  {
    var k, read := c[i].KeyOf(), ApplyCompute(sc, c[i], Around(sc, c)).fields;
    LoadedEntry(sc, c, Around(sc, c), i);
    LockstepExactly(LoadedIndex(sc, c), s, evts, k);
    assert forall f :: !IsFive(f) ==> SameField(read, read + five, f);
  }

  /** With the shipped registry the loaded copy lacks `ready`, `blocked_by` and
      `blocks`, and holds the two tag lists as empty: those three must be named,
      and each list unless it is empty. */
  lemma LoadedKanbanTaskAgrees(r: Rules, outside: nat, c: Cache, i: nat, s: Store, evts: seq<WatchEvent>,
                               ready: bool, blockedBy: seq<string>, blocks: seq<string>, tags: seq<string>, filter_: seq<string>)
    requires var sc := KanbanSchema(r, outside);
             && UniqueAcross(c) && i < |c| && c[i].kind == "task" && OwnId(LoadedIndex(sc, c), evts, c[i].KeyOf())
             && RawOnly(sc, "task", c[i].fields)
             && c[i].KeyOf() in s
             && s[c[i].KeyOf()] == ApplyCompute(sc, c[i], Around(sc, c)).fields + FiveFields(ready, blockedBy, blocks, tags, filter_)
    ensures var sc, k := KanbanSchema(r, outside), c[i].KeyOf();
            CopyIn(IndexReplay(LoadedIndex(sc, c), evts), c[i].id) == StoreCopy(Replay(s, evts), k) <==>
            Replaced(evts, k) ||
            (Names(evts, k, "ready") && Names(evts, k, "blocked_by") && Names(evts, k, "blocks") &&
             (tags == [] || Names(evts, k, "virtual_tags")) && (filter_ == [] || Names(evts, k, "filter_tags")))
  {
    var sc, k, five := KanbanSchema(r, outside), c[i].KeyOf(), FiveFields(ready, blockedBy, blocks, tags, filter_);
    FiveFieldsKeys(ready, blockedBy, blocks, tags, filter_);
    LoadedTaskAgrees(sc, c, i, s, five, evts);
    var read := ApplyCompute(sc, c[i], Around(sc, c)).fields;
    FiveSettled(read, read + five, evts, k);
    StubsLoaded(r, outside, c[i], Around(sc, c), ready, blockedBy, blocks, tags, filter_);
  }

  /** Which of the five fields the loaded copy of a task already holds right. */
  lemma StubsLoaded(r: Rules, outside: nat, e: Entity, v: Surroundings,
                    ready: bool, blockedBy: seq<string>, blocks: seq<string>, tags: seq<string>, filter_: seq<string>)
    requires e.kind == "task" && RawOnly(KanbanSchema(r, outside), "task", e.fields)
    ensures var read := ApplyCompute(KanbanSchema(r, outside), e, v).fields;
            var full := read + FiveFields(ready, blockedBy, blocks, tags, filter_);
            && !SameField(read, full, "ready") && !SameField(read, full, "blocked_by") && !SameField(read, full, "blocks")
            && (SameField(read, full, "virtual_tags") <==> tags == [])
            && (SameField(read, full, "filter_tags") <==> filter_ == [])
  {
    var read := ApplyCompute(KanbanSchema(r, outside), e, v).fields;
    StrsInjective(tags, []);
    StrsInjective(filter_, []);
    StubValues(r, e.fields, v);
    assert read == e.fields + DeriveTask(r, e.fields, v);
    assert "ready" !in e.fields && "blocked_by" !in e.fields && "blocks" !in e.fields;
  }

  lemma StubValues(r: Rules, f: Fields, v: Surroundings)
    ensures var d := DeriveTask(r, f, v);
            && "virtual_tags" in d && d["virtual_tags"] == Strs([]) && "filter_tags" in d && d["filter_tags"] == Strs([])
            && "ready" !in d && "blocked_by" !in d && "blocks" !in d
  {
    assert |"ready"| == 5 && |"blocked_by"| == 10 && |"blocks"| == 6 && |"tags"| == 4;
    assert |"virtual_tags"| == 12 && |"filter_tags"| == 11 && |ATTACHMENTS| == 11 && ATTACHMENTS[0] == 'a' && "filter_tags"[0] == 'f';
  }

  /** An entity of a type the index does not load is found again exactly when it
      was replaced, or touched with every field the store holds named. */
  lemma UnloadedAgrees(sc: Schema, c: Cache, i: nat, s: Store, evts: seq<WatchEvent>)
    requires UniqueAcross(c) && i < |c| && c[i].kind !in {"task", "tag", "column", "actor", "board"} && OwnId(LoadedIndex(sc, c), evts, c[i].KeyOf())
    requires c[i].KeyOf() in s
    ensures CopyIn(IndexReplay(LoadedIndex(sc, c), evts), c[i].id) == StoreCopy(Replay(s, evts), c[i].KeyOf()) <==>
            Replaced(evts, c[i].KeyOf()) ||
            (Touched(evts, c[i].KeyOf()) && forall f :: f in s[c[i].KeyOf()] ==> Names(evts, c[i].KeyOf(), f))
  {
    var k := c[i].KeyOf();
    LoadedEntry(sc, c, Around(sc, c), i);
    LockstepExactly(LoadedIndex(sc, c), s, evts, k);
    assert forall f :: SameField(Held(CopyIn(LoadedIndex(sc, c), k.id)), FieldsOf(s, k), f) <==> f !in s[k];
  }

  /** So a project whose name alone is edited reads differently in the two. */
  lemma EditedProjectDiverges(sc: Schema, name: Value, colour: Value)
    ensures var p := Entity("project", "p", map["name" := Null, "colour" := colour]);
            var evts := [EntityFieldChanged("project", "p", [FieldChange("name", name)])];
            CopyIn(IndexReplay(LoadedIndex(sc, [p]), evts), "p") !=
            StoreCopy(Replay(map[p.KeyOf() := p.fields], evts), p.KeyOf())
  {
    var p := Entity("project", "p", map["name" := Null, "colour" := colour]);
    var evts := [EntityFieldChanged("project", "p", [FieldChange("name", name)])];
    assert "project" !in INDEXED_KINDS;
    assert LoadedIndex(sc, [p]) == map[] by { assert [p][..0] == []; assert LoadedUnder(sc, [], Around(sc, [p])) == map[]; }
    UnloadedAgrees(sc, [p], 0, map[p.KeyOf() := p.fields], evts);
    assert |"name"| != |"colour"|;
    assert evts[..0] == [] && !Names([], p.KeyOf(), "colour") && !Replaced([], p.KeyOf());
    assert "colour" in p.fields && !Names(evts, p.KeyOf(), "colour");
  }

  /** With one id shared by two types the index forgets one of them. */
  lemma SharedIdDiverges(f: Fields, g: Fields)
    ensures var evts := [EntityCreated("task", "x", f), EntityCreated("tag", "x", g)];
            !Mirrors(IndexReplay(map[], evts), Replay(map[], evts))
  {
    var first, second := EntityCreated("task", "x", f), EntityCreated("tag", "x", g);
    ReplayAppend(map[], [first], second);
    ReplaySplit(map[], [first]);
    assert [first, second] == [first] + [second];
    assert [first, second][..1] == [first] && [first][..0] == [];
    var s, m := Replay(map[], [first, second]), IndexReplay(map[], [first, second]);
    assert s == map[Key("task", "x") := f][Key("tag", "x") := g];
    assert Key("task", "x") in s && m["x"].kind == "tag";
    assert |"task"| != |"tag"|;
  }
}
