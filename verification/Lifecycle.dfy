/** The order in which the bridge announces one entity: the `seen` set against
    the stream of primary events. */
module Lifecycle {
  import opened EntityCache
  import opened Watcher
  import opened EventQueue

  /** One resolved event: the cache it was resolved against, and whether the
      entity context could be opened. */
  datatype Input = Input(evt: EntityEvent, cache: Cache, available: bool)

  function BridgeAfter(sc: Schema, b: Bridge, ins: seq<Input>): Bridge
    decreases |ins|
  {
    if ins == [] then b
    else
      var last := ins[|ins| - 1];
      Resolve(sc, last.cache, last.available, BridgeAfter(sc, b, ins[..|ins| - 1]), last.evt).bridge
  }

  /** The primary event each input resolved to. */
  function Primaries(sc: Schema, b: Bridge, ins: seq<Input>): seq<WatchEvent>
    decreases |ins|
    ensures |Primaries(sc, b, ins)| == |ins|
  {
    if ins == [] then []
    else
      var last := ins[|ins| - 1];
      var before := ins[..|ins| - 1];
      Primaries(sc, b, before) +
      [Resolve(sc, last.cache, last.available, BridgeAfter(sc, b, before), last.evt).out[0]]
  }

  predicate Announces(e: WatchEvent, k: Key) {
    !e.AttachmentChanged? && Key(e.kind, e.id) == k
  }

  /** Whether the announcements so far leave `k` existing, given `preloaded`. */
  predicate Announced(log: seq<WatchEvent>, k: Key, preloaded: bool) {
    if log == [] then preloaded
    else
      var last := log[|log| - 1];
      if Announces(last, k) then !last.EntityRemoved? else Announced(log[..|log| - 1], k, preloaded)
  }

  /** What the primary event says, and how it moves the `seen` set. */
  lemma PrimaryMeaning(sc: Schema, i: Input, b: Bridge, k: Key)
    ensures var r := Resolve(sc, i.cache, i.available, b, i.evt);
            var p := r.out[0];
            && (Announces(p, k) <==> Concerns(i.evt, k))
            && (Announces(p, k) && p.EntityCreated? ==> k !in b.seen)
            && (Announces(p, k) && p.EntityFieldChanged? ==> k in b.seen)
            && (k in r.bridge.seen <==> if Announces(p, k) then !p.EntityRemoved? else k in b.seen)
  {
  }

  /** `seen` is exactly the set of entities whose latest primary event is not a
      removal, or that were preloaded and never announced. */
  lemma {:induction false} SeenIsAnnounced(sc: Schema, b: Bridge, ins: seq<Input>, k: Key)
    ensures k in BridgeAfter(sc, b, ins).seen <==> Announced(Primaries(sc, b, ins), k, k in b.seen)
    decreases |ins|
  {
    if ins != [] {
      var n := |ins| - 1;
      SeenIsAnnounced(sc, b, ins[..n], k);
      PrimaryMeaning(sc, ins[n], BridgeAfter(sc, b, ins[..n]), k);
      assert Primaries(sc, b, ins)[..n] == Primaries(sc, b, ins[..n]);
    }
  }

  lemma {:induction false} PrimariesPrefix(sc: Schema, b: Bridge, ins: seq<Input>, j: nat)
    requires j < |ins|
    ensures Primaries(sc, b, ins)[..j] == Primaries(sc, b, ins[..j])
    ensures Primaries(sc, b, ins)[j] ==
            Resolve(sc, ins[j].cache, ins[j].available, BridgeAfter(sc, b, ins[..j]), ins[j].evt).out[0]
    decreases |ins|
  {
    var n := |ins| - 1;
    assert Primaries(sc, b, ins)[..n] == Primaries(sc, b, ins[..n]);
    if j < n {
      PrimariesPrefix(sc, b, ins[..n], j);
      assert ins[..n][..j] == ins[..j];
      assert Primaries(sc, b, ins)[..j] == Primaries(sc, b, ins)[..n][..j];
    }
  }

  /** A primary event is Created exactly when the log before it leaves the entity
      absent, and FieldChanged exactly when it leaves it present. */
  lemma PrimaryFollowsLog(sc: Schema, b: Bridge, ins: seq<Input>, j: nat, k: Key)
    requires j < |ins| && Concerns(ins[j].evt, k)
    ensures var log := Primaries(sc, b, ins);
            && Announces(log[j], k)
            && (log[j].EntityRemoved? <==> ins[j].evt.EntityDeleted?)
            && (log[j].EntityCreated? <==> ins[j].evt.EntityChanged? && !Announced(log[..j], k, k in b.seen))
            && (log[j].EntityFieldChanged? <==> ins[j].evt.EntityChanged? && Announced(log[..j], k, k in b.seen))
  {
    PrimariesPrefix(sc, b, ins, j);
    SeenIsAnnounced(sc, b, ins[..j], k);
    PrimaryMeaning(sc, ins[j], BridgeAfter(sc, b, ins[..j]), k);
  }

  lemma {:induction false} AnnouncedSince(log: seq<WatchEvent>, i: nat, k: Key, preloaded: bool)
    requires i < |log| && Announces(log[i], k) && !log[i].EntityRemoved?
    requires forall m :: i < m < |log| ==> !(Announces(log[m], k) && log[m].EntityRemoved?)
    ensures Announced(log, k, preloaded)
    decreases |log|
  {
    var n := |log| - 1;
    if i < n && !Announces(log[n], k) {
      AnnouncedSince(log[..n], i, k, preloaded);
    }
  }

  /** Two Created events for one entity have a Removed between them. */
  lemma CreatedTwiceRemovedBetween(sc: Schema, b: Bridge, ins: seq<Input>, i: nat, j: nat, k: Key)
    requires i < j < |ins|
    requires var log := Primaries(sc, b, ins);
             && Announces(log[i], k) && log[i].EntityCreated?
             && Announces(log[j], k) && log[j].EntityCreated?
    ensures var log := Primaries(sc, b, ins);
            exists m :: i < m < j && Announces(log[m], k) && log[m].EntityRemoved?
  {
    var log := Primaries(sc, b, ins);
    PrimariesPrefix(sc, b, ins, j);
    PrimaryMeaning(sc, ins[j], BridgeAfter(sc, b, ins[..j]), k);
    PrimaryFollowsLog(sc, b, ins, j, k);
    if forall m :: i < m < j ==> !(Announces(log[m], k) && log[m].EntityRemoved?) {
      forall m | i < m < |log[..j]| ensures !(Announces(log[..j][m], k) && log[..j][m].EntityRemoved?) {
        assert log[..j][m] == log[m];
      }
      AnnouncedSince(log[..j], i, k, k in b.seen);
    }
  }

  lemma {:induction false} AnnouncedHasCreated(log: seq<WatchEvent>, k: Key, preloaded: bool)
    requires Announced(log, k, preloaded)
    ensures (exists i :: 0 <= i < |log| && Announces(log[i], k) && !log[i].EntityRemoved? &&
               forall m :: i < m < |log| ==> !(Announces(log[m], k) && log[m].EntityRemoved?)) ||
            (preloaded && forall m :: 0 <= m < |log| ==> !Announces(log[m], k))
    decreases |log|
  {
    if log != [] {
      var n := |log| - 1;
      if !Announces(log[n], k) {
        AnnouncedHasCreated(log[..n], k, preloaded);
        if i :| 0 <= i < n && Announces(log[..n][i], k) && !log[..n][i].EntityRemoved? &&
              forall m :: i < m < n ==> !(Announces(log[..n][m], k) && log[..n][m].EntityRemoved?) {
          forall m | i < m < |log| ensures !(Announces(log[m], k) && log[m].EntityRemoved?) {
            if m < n { assert log[..n][m] == log[m]; }
          }
          assert Announces(log[i], k) && !log[i].EntityRemoved?;
        } else {
          forall m | 0 <= m < |log| ensures !Announces(log[m], k) {
            if m < n { assert log[..n][m] == log[m]; }
          }
        }
      } else {
        assert Announces(log[n], k) && !log[n].EntityRemoved?;
      }
    }
  }

  /** No removal of `k` stands strictly between `i` and `j`. */
  ghost predicate KeptBetween(log: seq<WatchEvent>, i: int, j: int, k: Key) {
    forall m :: i < m < j && 0 <= m < |log| ==> !(Announces(log[m], k) && log[m].EntityRemoved?)
  }

  /** A Created of `k` stands before `j`, with no removal in between. */
  ghost predicate CreatedBefore(log: seq<WatchEvent>, j: nat, k: Key) {
    exists i :: 0 <= i < j && i < |log| && Announces(log[i], k) && log[i].EntityCreated? && KeptBetween(log, i, j, k)
  }

  ghost predicate RemovedBefore(log: seq<WatchEvent>, j: nat, k: Key) {
    exists m :: 0 <= m < j && m < |log| && Announces(log[m], k) && log[m].EntityRemoved?
  }

  lemma LastWord(log: seq<WatchEvent>, j: nat, k: Key, preloaded: bool) returns (i: nat)
    requires j < |log| && Announced(log[..j], k, preloaded) && (!preloaded || RemovedBefore(log, j, k))
    ensures i < j && Announces(log[i], k) && !log[i].EntityRemoved? && KeptBetween(log, i, j, k)
    ensures !preloaded || RemovedBefore(log, i, k)
  {
    var head := log[..j];
    AnnouncedHasCreated(head, k, preloaded);
    if preloaded {
      var m :| 0 <= m < j && Announces(log[m], k) && log[m].EntityRemoved?;
      assert Announces(head[m], k);
    }
    i :| 0 <= i < j && Announces(head[i], k) && !head[i].EntityRemoved? &&
      forall m :: i < m < j ==> !(Announces(head[m], k) && head[m].EntityRemoved?);
    forall m | i < m < j ensures !(Announces(log[m], k) && log[m].EntityRemoved?) {
      assert head[m] == log[m];
    }
    if preloaded {
      var r :| 0 <= r < j && Announces(log[r], k) && log[r].EntityRemoved?;
      assert r < i;
    }
  }

  /** A FieldChanged is never the first word after a Removed: since the last
      Removed of the entity (or since startup, unless it was preloaded) a
      Created stands before it. */
  lemma {:induction false} FieldChangedAfterCreated(sc: Schema, b: Bridge, ins: seq<Input>, j: nat, k: Key)
    requires j < |ins|
    requires Announces(Primaries(sc, b, ins)[j], k) && Primaries(sc, b, ins)[j].EntityFieldChanged?
    requires k !in b.seen || RemovedBefore(Primaries(sc, b, ins), j, k)
    ensures CreatedBefore(Primaries(sc, b, ins), j, k)
    decreases j
  {
    var log := Primaries(sc, b, ins);
    PrimaryIs(sc, b, ins, j, k);
    PrimaryFollowsLog(sc, b, ins, j, k);
    var i := LastWord(log, j, k, k in b.seen);
    if !log[i].EntityCreated? {
      FieldChangedAfterCreated(sc, b, ins, i, k);
      var i0 :| 0 <= i0 < i && i0 < |log| && Announces(log[i0], k) && log[i0].EntityCreated? && KeptBetween(log, i0, i, k);
      KeptAcross(log, i0, i, j, k);
    }
  }

  lemma PrimaryIs(sc: Schema, b: Bridge, ins: seq<Input>, j: nat, k: Key)
    requires j < |ins|
    ensures Announces(Primaries(sc, b, ins)[j], k) <==> Concerns(ins[j].evt, k)
  {
    PrimariesPrefix(sc, b, ins, j);
    PrimaryMeaning(sc, ins[j], BridgeAfter(sc, b, ins[..j]), k);
  }

  lemma KeptAcross(log: seq<WatchEvent>, i0: nat, i: nat, j: nat, k: Key)
    requires i0 < i < j <= |log| && KeptBetween(log, i0, i, k) && KeptBetween(log, i, j, k) && !log[i].EntityRemoved?
    ensures KeptBetween(log, i0, j, k)
  {
  }
}
