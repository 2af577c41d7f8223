/** The bridge without an entity context: what its raw events carry, and what
    the replica holds when any of the deliveries may have to do without one. */
module Fallback {
  import opened Json
  import opened EntityCache
  import opened TaskGraph
  import opened Watcher
  import opened Replica
  import opened EventQueue
  import opened TaskLists
  import opened Convergence
  import opened Delivery

  // ---- one raw event ----------------------------------------------------------------

  /** The replica's copy of `k` reads as `fields`. */
  ghost predicate Reads(s: Store, k: Key, fields: Fields) {
    forall f :: At(FieldsOf(s, k), f) == At(fields, f)
  }

  /** A raw event carries everything the change list says: a known entity's copy
      that read as before reads as after, and so does a new entity's, if and only
      if nothing with a value stayed the same. No other entity moves. */
  lemma RawEventCarries(sc: Schema, c: Cache, b: Bridge, k: Key, old_: Fields, new_: Fields, changes: seq<FieldChange>, s: Store)
    requires IsDiff(old_, new_, changes) && Reads(s, k, old_)
    ensures var s' := Replay(s, Resolve(sc, c, false, b, EntityChanged(k.kind, k.id, changes)).out);
            && (Reads(s', k, new_) <==>
                  k in b.seen || forall f :: f in old_ && f in new_ && old_[f] == new_[f] ==> old_[f] == Null)
            && (forall j :: j != k ==> (j in s' <==> j in s) && FieldsOf(s', j) == FieldsOf(s, j))
  {
    var out := Resolve(sc, c, false, b, EntityChanged(k.kind, k.id, changes)).out;
    ReplayOne(s, out[0]);
    var s' := Replay(s, out);
    forall f
      ensures At(FieldsOf(s', k), f) == if k in b.seen || Differs(old_, new_, f) then At(new_, f) else Null
    {
      PatchAt(if k in b.seen then FieldsOf(s, k) else map[], changes, f);
      DiffAssigns(old_, new_, changes, f);
      AssignedUnnamed(changes, f, At(old_, f));
    }
    if k !in b.seen && Reads(s', k, new_) {
      forall f | f in old_ && f in new_ && old_[f] == new_[f] ensures old_[f] == Null {
        assert At(FieldsOf(s', k), f) == At(new_, f);
      }
    }
  }

  lemma ReplayOne(s: Store, evt: WatchEvent)
    ensures Replay(s, [evt]) == ApplyEvent(s, evt)
  {
    assert [evt][..0] == [];
  }

  /** A new entity arrives with all it holds, a known one with all that changed. */
  lemma RawEventReads(sc: Schema, c: Cache, b: Bridge, k: Key, old_: Fields, new_: Fields, changes: seq<FieldChange>, s: Store)
    requires IsDiff(old_, new_, changes) && Reads(s, k, old_) && (k !in b.seen ==> old_ == map[])
    ensures var s' := Replay(s, Resolve(sc, c, false, b, EntityChanged(k.kind, k.id, changes)).out);
            && Reads(s', k, new_)
            && (forall j :: j != k ==> (j in s' <==> j in s) && FieldsOf(s', j) == FieldsOf(s, j))
  {
    RawEventCarries(sc, c, b, k, old_, new_, changes, s);
  }

  /** An entity that is gone by the time its event is resolved is announced as it
      would be without a context. */
  lemma GoneIsRaw(sc: Schema, c: Cache, b: Bridge, k: Key, changes: seq<FieldChange>)
    requires !Has(c, k)
    ensures var evt := EntityChanged(k.kind, k.id, changes);
            Resolve(sc, c, true, b, evt).out[0] == Resolve(sc, c, false, b, evt).out[0]
  {
  }

  // ---- every run ---------------------------------------------------------------------

  /** A step of the pipeline, or a delivery that finds no entity context. */
  datatype Move = With(a: Action) | Blind

  function MoveStep(sc: Schema, s: System, m: Move): System
    requires m.Blind? || m.a.Deliver? ==> s.queue != []
  {
    match m
    case With(a) => Step(sc, s, a)
    case Blind => Advance(Now(sc, s), s, Resolve(Now(sc, s), s.cache, false, s.bridge, s.queue[0]))
  }

  ghost predicate MoveEnabled(sc: Schema, s: System, m: Move) {
    match m
    case With(a) => Enabled(sc, s, a)
    case Blind => s.queue != []
  }

  ghost predicate MovesLegal(sc: Schema, s: System, run: seq<Move>)
    decreases |run|
  {
    run == [] || (MoveEnabled(sc, s, run[0]) && MovesLegal(sc, MoveStep(sc, s, run[0]), run[1..]))
  }

  ghost function AfterMoves(sc: Schema, s: System, run: seq<Move>): System
    requires MovesLegal(sc, s, run)
    decreases |run|
  {
    if run == [] then s else AfterMoves(sc, MoveStep(sc, s, run[0]), run[1..])
  }

  /** An entity the bridge has not seen has no stored field in the replica. */
  ghost predicate UnseenBare(sc: Schema, s: System, k: Key) {
    k !in s.bridge.seen ==> forall f :: Plain(sc, k.kind, f) ==> At(FieldsOf(s.store, k), f) == Null
  }

  ghost predicate StoredInv(sc: Schema, s: System) {
    && Unique(s.cache)
    && (forall i :: 0 <= i < |s.queue| ==> EventRaw(sc, s.queue[i]))
    && (forall k :: StoredOk(sc, s, k) && UnseenBare(sc, s, k))
  }

  lemma StoredAnytime(sc: Schema, x: nat, s: System, k: Key)
    ensures StoredOk(sc.(outside := x), s, k) <==> StoredOk(sc, s, k)
    ensures UnseenBare(sc.(outside := x), s, k) <==> UnseenBare(sc, s, k)
  {
    var sc' := sc.(outside := x);
    assert forall f :: Plain(sc', k.kind, f) == Plain(sc, k.kind, f);
    assert SettlesRight(sc', s, k) <==> SettlesRight(sc, s, k);
    assert RawOnly(sc', k.kind, FieldsIn(s.cache, k)) <==> RawOnly(sc, k.kind, FieldsIn(s.cache, k));
  }

  // ---- writers ------------------------------------------------------------------------

  lemma PutKeepsStored(sc: Schema, s: System, e: Entity, changes: seq<FieldChange>, k: Key)
    requires StoredInv(sc, s) && Enabled(sc, s, Put(e, changes))
    ensures StoredOk(sc, Step(sc, s, Put(e, changes)), k)
  {
    assert StoredOk(sc, s, k);
    FindInsert(s.cache, e, k);
    QueueAppendFacts(s.queue, EntityChanged(e.kind, e.id, changes), k, s.bridge.seen);
    PutSettles(sc, s, e, changes, k);
  }

  lemma RemoveKeepsStored(sc: Schema, s: System, k0: Key, k: Key)
    requires StoredInv(sc, s)
    ensures StoredOk(sc, Step(sc, s, Remove(k0)), k)
  {
    assert StoredOk(sc, s, k);
    FindDrop(s.cache, k0, k);
    QueueAppendFacts(s.queue, EntityDeleted(k0.kind, k0.id), k, s.bridge.seen);
    RemoveSettles(sc, s, k0, k);
  }

  lemma AttachKeepsStored(sc: Schema, s: System, kind: string, filename: string, removed: bool, k: Key)
    requires StoredInv(sc, s)
    ensures StoredOk(sc, Step(sc, s, Attach(kind, filename, removed)), k)
  {
    var evt := AttachmentTouched(kind, filename, removed);
    assert StoredOk(sc, s, k);
    QueueAppendFacts(s.queue, evt, k, s.bridge.seen);
    forall f | Plain(sc, k.kind, f)
      ensures Settled(s.queue + [evt], k, f, At(FieldsOf(s.store, k), f)) == At(FieldsIn(s.cache, k), f)
    {
      SettledAppend(s.queue, evt, k, f, At(FieldsOf(s.store, k), f));
    }
  }

  // ---- deliveries ----------------------------------------------------------------------

  /** The stored value of a concerned entity after the primary event. */
  lemma PrimaryStored(sc: Schema, s: System, k: Key, f: string)
    requires WellFormed(sc) && StoredReady(sc, s, k) && UnseenBare(sc, s, k) && Plain(sc, k.kind, f)
    requires k !in SeenAfter(s.bridge.seen, s.queue[0])
    ensures At(FieldsOf(AfterPrimary(sc, s), k), f) == Null
  {
    if !Concerns(s.queue[0], k) { AfterPrimaryElsewhere(sc, s, k); }
  }

  lemma DeliverKeepsStored(sc: Schema, s: System, s': System, k: Key)
    requires WellFormed(sc) && StoredReady(sc, s, k) && UnseenBare(sc, s, k) && Delivered(sc, s, s')
    ensures StoredOk(sc, s', k) && UnseenBare(sc, s', k)
  {
    DeliverSettles(sc, s, s', k);
    DeliverLife(sc, s, s', k);
    DeliverRaw(sc, s, s', k);
    forall f | k !in s'.bridge.seen && Plain(sc, k.kind, f) ensures At(FieldsOf(s'.store, k), f) == Null {
      PrimaryStored(sc, s, k, f);
    }
  }

  /** One stored field after a blind delivery of the head. */
  lemma BlindStored(sc: Schema, s: System, k: Key, f: string)
    requires s.queue != [] && UnseenBare(sc, s, k) && Plain(sc, k.kind, f)
    ensures var s' := MoveStep(sc, s, Blind);
            At(FieldsOf(s'.store, k), f) == StepValue(s.queue[0], k, f, At(FieldsOf(s.store, k), f))
    ensures var s' := MoveStep(sc, s, Blind);
            k in s'.store ==> if Concerns(s.queue[0], k) then s.queue[0].EntityChanged? else k in s.store
  {
    var e := s.queue[0];
    var out := Resolve(Now(sc, s), s.cache, false, s.bridge, e).out;
    ReplayOne(s.store, out[0]);
    if Concerns(e, k) && e.EntityChanged? {
      PatchAt(if k in s.bridge.seen then FieldsOf(s.store, k) else map[], e.changes, f);
    }
  }

  lemma BlindKeepsStored(sc: Schema, s: System, k: Key)
    requires StoredReady(sc, s, k) && UnseenBare(sc, s, k)
    ensures var s' := MoveStep(sc, s, Blind);
            StoredOk(sc, s', k) && UnseenBare(sc, s', k)
  {
    var s' := MoveStep(sc, s, Blind);
    forall f | Plain(sc, k.kind, f)
      ensures Settled(s'.queue, k, f, At(FieldsOf(s'.store, k), f)) == At(FieldsIn(s.cache, k), f)
      ensures k !in s'.bridge.seen ==> At(FieldsOf(s'.store, k), f) == Null
    {
      BlindStored(sc, s, k, f);
    }
    BlindLife(sc, s, k);
  }

  lemma BlindLife(sc: Schema, s: System, k: Key)
    requires StoredReady(sc, s, k)
    ensures LifeOk(MoveStep(sc, s, Blind), k)
  {
    var out := Resolve(Now(sc, s), s.cache, false, s.bridge, s.queue[0]).out;
    ReplayOne(s.store, out[0]);
  }

  // ---- every run -------------------------------------------------------------------------

  lemma MoveKeeps(sc: Schema, s: System, m: Move)
    requires WellFormed(sc) && StoredInv(sc, s) && MoveEnabled(sc, s, m)
    ensures StoredInv(sc, MoveStep(sc, s, m))
  {
    var s' := MoveStep(sc, s, m);
    forall k
      ensures StoredOk(sc, s', k) && UnseenBare(sc, s', k)
    {
      assert StoredOk(sc, s, k) && UnseenBare(sc, s, k);
      match m {
        case Blind => BlindKeepsStored(sc, s, k);
        case With(Put(e, changes)) => PutKeepsStored(sc, s, e, changes, k);
        case With(Remove(k0)) => RemoveKeepsStored(sc, s, k0, k);
        case With(Attach(kind, filename, removed)) => AttachKeepsStored(sc, s, kind, filename, removed, k);
        case With(Elsewhere(_)) =>
        case With(Deliver) =>
          var now := Now(sc, s);
          StoredAnytime(sc, s.outside, s, k);
          StoredAnytime(sc, s.outside, s', k);
          DeliveredNow(sc, s);
          DeliverKeepsStored(now, s, s', k);
      }
    }
    QueueKeeps(sc, s, m);
  }

  lemma QueueKeeps(sc: Schema, s: System, m: Move)
    requires WellFormed(sc) && StoredInv(sc, s) && MoveEnabled(sc, s, m)
    ensures var s' := MoveStep(sc, s, m);
            Unique(s'.cache) && forall i :: 0 <= i < |s'.queue| ==> EventRaw(sc, s'.queue[i])
  {
    if m.With? && m.a.Put? {
      UniqueInsert(s.cache, m.a.e);
      assert StoredOk(sc, s, m.a.e.KeyOf());
      forall n | NamesField(m.a.changes, n) ensures n !in sc.derived(m.a.e.kind) {
        DiffAssigns(FieldsIn(s.cache, m.a.e.KeyOf()), m.a.e.fields, m.a.changes, n);
      }
    } else if m.With? && m.a.Remove? {
      UniqueDrop(s.cache, m.a.key);
    }
  }

  lemma {:induction false} MovesKeep(sc: Schema, s: System, run: seq<Move>)
    requires WellFormed(sc) && StoredInv(sc, s) && MovesLegal(sc, s, run)
    ensures StoredInv(sc, AfterMoves(sc, s, run))
    decreases |run|
  {
    if run != [] {
      MoveKeeps(sc, s, run[0]);
      MovesKeep(sc, MoveStep(sc, s, run[0]), run[1..]);
    }
  }

  /** From a start that has seen every live entity, whatever deliveries find no
      context: whenever the queue is empty the replica holds exactly the live
      entities' stored fields, and no dead entity. */
  lemma StoredAlwaysArrive(sc: Schema, s: System, run: seq<Move>, k: Key)
    requires WellFormed(sc) && Initial(sc, s) && MovesLegal(sc, s, run)
    requires forall j :: Has(s.cache, j) ==> j in s.bridge.seen
    requires AfterMoves(sc, s, run).queue == []
    ensures var t := AfterMoves(sc, s, run);
            && (forall f :: Plain(sc, k.kind, f) ==> At(FieldsOf(t.store, k), f) == At(FieldsIn(t.cache, k), f))
            && (k in t.store ==> Has(t.cache, k))
  {
    InitialInv(sc, s);
    forall j ensures StoredOk(sc, s, j) && UnseenBare(sc, s, j) {
      assert KeyOk(sc, s, j);
      assert HeldFor(Now(sc, s), s.cache, s.store, j);
      assert !Has(s.cache, j) ==> j !in s.store;
    }
    MovesKeep(sc, s, run);
    assert StoredOk(sc, AfterMoves(sc, s, run), k);
  }
}
