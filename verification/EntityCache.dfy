/** The entity cache: an insertion-ordered table of entities keyed by type and
    id. Rewriting an entity keeps its place, a new one goes to the end, and
    removing one keeps the order of the rest. */
module EntityCache {
  import opened Json

  datatype Key = Key(kind: string, id: string)

  datatype Entity = Entity(kind: string, id: string, fields: Fields) {
    function KeyOf(): Key { Key(kind, id) }
  }

  type Cache = seq<Entity>

  function Find(c: Cache, k: Key): Option<Entity> {
    if c == [] then None
    else if c[0].KeyOf() == k then Some(c[0])
    else Find(c[1..], k)
  }

  predicate Has(c: Cache, k: Key) {
    Find(c, k).Some?
  }

  function FieldsIn(c: Cache, k: Key): Fields {
    match Find(c, k)
    case Some(e) => e.fields
    case None => map[]
  }

  function Insert(c: Cache, e: Entity): Cache {
    if c == [] then [e]
    else if c[0].KeyOf() == e.KeyOf() then [e] + c[1..]
    else [c[0]] + Insert(c[1..], e)
  }

  function Drop(c: Cache, k: Key): Cache {
    if c == [] then []
    else if c[0].KeyOf() == k then c[1..]
    else [c[0]] + Drop(c[1..], k)
  }

  ghost predicate Unique(c: Cache) {
    forall i, j :: 0 <= i < j < |c| ==> c[i].KeyOf() != c[j].KeyOf()
  }

  lemma {:induction false} FindKey(c: Cache, k: Key)
    ensures Has(c, k) ==> Find(c, k).value.KeyOf() == k && Find(c, k).value in c
    ensures !Has(c, k) ==> forall i :: 0 <= i < |c| ==> c[i].KeyOf() != k
  {
    if c != [] && c[0].KeyOf() != k {
      FindKey(c[1..], k);
      if !Has(c, k) {
        forall i | 0 <= i < |c| ensures c[i].KeyOf() != k {
          if i > 0 { assert c[1..][i - 1] == c[i]; }
        }
      }
    }
  }

  lemma {:induction false} FindAt(c: Cache, i: nat)
    requires Unique(c) && i < |c|
    ensures Find(c, c[i].KeyOf()) == Some(c[i])
  {
    if i > 0 {
      assert c[0].KeyOf() != c[i].KeyOf();
      assert c[1..][i - 1] == c[i];
      FindAt(c[1..], i - 1);
    }
  }

  lemma {:induction false} FindInsert(c: Cache, e: Entity, k: Key)
    ensures Find(Insert(c, e), k) == if k == e.KeyOf() then Some(e) else Find(c, k)
  {
    if c != [] && c[0].KeyOf() != e.KeyOf() {
      FindInsert(c[1..], e, k);
      assert Insert(c, e)[1..] == Insert(c[1..], e);
    }
  }

  lemma {:induction false} FindDrop(c: Cache, k0: Key, k: Key)
    requires Unique(c)
    ensures Find(Drop(c, k0), k) == if k == k0 then None else Find(c, k)
  {
    if c != [] {
      if c[0].KeyOf() == k0 {
        FindKey(c[1..], k0);
      } else {
        FindDrop(c[1..], k0, k);
        assert Drop(c, k0)[1..] == Drop(c[1..], k0);
      }
    }
  }

  lemma {:induction false} InsertKeys(c: Cache, e: Entity, x: Entity)
    requires x in Insert(c, e)
    ensures x == e || x in c
  {
    if c != [] && c[0].KeyOf() != e.KeyOf() && x != c[0] {
      assert x in Insert(c[1..], e);
      InsertKeys(c[1..], e, x);
    }
  }

  lemma {:induction false} UniqueInsert(c: Cache, e: Entity)
    requires Unique(c)
    ensures Unique(Insert(c, e))
  {
    if c != [] {
      if c[0].KeyOf() == e.KeyOf() {
        var d := [e] + c[1..];
        forall i, j | 0 <= i < j < |d| ensures d[i].KeyOf() != d[j].KeyOf() {
          assert c[i].KeyOf() != c[j].KeyOf();
        }
      } else {
        UniqueInsert(c[1..], e);
        var t := Insert(c[1..], e);
        forall i, j | 0 <= i < j < |t| + 1 ensures Insert(c, e)[i].KeyOf() != Insert(c, e)[j].KeyOf() {
          if i == 0 {
            InsertKeys(c[1..], e, t[j - 1]);
            if t[j - 1] in c[1..] {
              var m :| 0 <= m < |c[1..]| && c[1..][m] == t[j - 1];
              assert c[0].KeyOf() != c[m + 1].KeyOf();
            }
          } else {
            assert t[i - 1].KeyOf() != t[j - 1].KeyOf();
          }
        }
      }
    }
  }

  lemma {:induction false} DropSubset(c: Cache, k: Key, x: Entity)
    requires x in Drop(c, k)
    ensures x in c
  {
    if c != [] && c[0].KeyOf() != k && x != c[0] {
      DropSubset(c[1..], k, x);
    }
  }

  lemma {:induction false} UniqueDrop(c: Cache, k: Key)
    requires Unique(c)
    ensures Unique(Drop(c, k))
  {
    if c != [] && c[0].KeyOf() != k {
      UniqueDrop(c[1..], k);
      var t := Drop(c[1..], k);
      forall i, j | 0 <= i < j < |t| + 1 ensures Drop(c, k)[i].KeyOf() != Drop(c, k)[j].KeyOf() {
        if i == 0 {
          DropSubset(c[1..], k, t[j - 1]);
          var m :| 0 <= m < |c[1..]| && c[1..][m] == t[j - 1];
          assert c[0].KeyOf() != c[m + 1].KeyOf();
        } else {
          assert t[i - 1].KeyOf() != t[j - 1].KeyOf();
        }
      }
    }
  }
}
