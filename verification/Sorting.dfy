/** The byte order of strings and a stable sort, standing for the library sort
    the repository calls. */
module Sorting {

  /** Lexicographic order on strings. */
  predicate LessEq(a: string, b: string) {
    a == [] || (b != [] && (a[0] < b[0] || (a[0] == b[0] && LessEq(a[1..], b[1..]))))
  }

  predicate Less(a: string, b: string) { LessEq(a, b) && a != b }

  lemma {:induction false} LessEqTotal(a: string, b: string)
    ensures LessEq(a, b) || LessEq(b, a)
    ensures LessEq(a, b) && LessEq(b, a) ==> a == b
  {
    if a != [] && b != [] && a[0] == b[0] {
      LessEqTotal(a[1..], b[1..]);
      assert a == [a[0]] + a[1..] && b == [b[0]] + b[1..];
    }
  }

  lemma {:induction false} LessEqTransitive(a: string, b: string, c: string)
    requires LessEq(a, b) && LessEq(b, c)
    ensures LessEq(a, c)
  {
    if a != [] && a[0] == b[0] == c[0] {
      LessEqTransitive(a[1..], b[1..], c[1..]);
    }
  }

  /** A total preorder. */
  ghost predicate Ordering<T(!new)>(leq: (T, T) -> bool) {
    && (forall x, y :: leq(x, y) || leq(y, x))
    && (forall x, y, z :: leq(x, y) && leq(y, z) ==> leq(x, z))
  }

  ghost predicate Sorted<T>(s: seq<T>, leq: (T, T) -> bool) {
    forall i, j :: 0 <= i < j < |s| ==> leq(s[i], s[j])
  }

  function Place<T>(x: T, s: seq<T>, leq: (T, T) -> bool): seq<T> {
    if s == [] then [x]
    else if leq(x, s[0]) then [x] + s
    else [s[0]] + Place(x, s[1..], leq)
  }

  /** Sorts by `leq`, keeping elements that compare equal in their old order. */
  function StableSort<T>(s: seq<T>, leq: (T, T) -> bool): seq<T> {
    if s == [] then [] else Place(s[0], StableSort(s[1..], leq), leq)
  }

  lemma {:induction false} PlaceMultiset<T>(x: T, s: seq<T>, leq: (T, T) -> bool)
    ensures multiset(Place(x, s, leq)) == multiset{x} + multiset(s)
  {
    if s != [] {
      assert s == [s[0]] + s[1..];
      if !leq(x, s[0]) { PlaceMultiset(x, s[1..], leq); }
    }
  }

  lemma {:induction false} SortMultiset<T>(s: seq<T>, leq: (T, T) -> bool)
    ensures multiset(StableSort(s, leq)) == multiset(s)
  {
    if s != [] {
      SortMultiset(s[1..], leq);
      PlaceMultiset(s[0], StableSort(s[1..], leq), leq);
      assert s == [s[0]] + s[1..];
    }
  }

  lemma SameElements<T>(a: seq<T>, b: seq<T>, x: T)
    requires multiset(a) == multiset(b)
    ensures x in a <==> x in b
  {
    assert x in a <==> x in multiset(a);
    assert x in b <==> x in multiset(b);
  }

  lemma {:induction false} PlaceSorted<T(!new)>(x: T, s: seq<T>, leq: (T, T) -> bool)
    requires Ordering(leq) && Sorted(s, leq)
    ensures Sorted(Place(x, s, leq), leq)
  {
    if s != [] && !leq(x, s[0]) {
      PlaceSorted(x, s[1..], leq);
      PlaceMultiset(x, s[1..], leq);
      var p := Place(x, s[1..], leq);
      forall j | 0 <= j < |p| ensures leq(s[0], p[j]) {
        assert p[j] in multiset(p);
        if p[j] != x {
          assert p[j] in s[1..];
          var m :| 0 <= m < |s[1..]| && s[1..][m] == p[j];
          assert leq(s[0], s[m + 1]);
        }
      }
    } else if s != [] {
      forall j | 0 <= j < |s| ensures leq(x, s[j]) {
        assert j > 0 ==> leq(s[0], s[j]);
      }
    }
  }

  lemma {:induction false} SortSorted<T(!new)>(s: seq<T>, leq: (T, T) -> bool)
    requires Ordering(leq)
    ensures Sorted(StableSort(s, leq), leq)
  {
    if s != [] {
      SortSorted(s[1..], leq);
      PlaceSorted(s[0], StableSort(s[1..], leq), leq);
    }
  }

  // ---- sorted arrangements -----------------------------------------------------

  ghost predicate StrictlySorted<T>(s: seq<T>, leq: (T, T) -> bool) {
    forall i, j :: 0 <= i < j < |s| ==> leq(s[i], s[j]) && !leq(s[j], s[i])
  }

  lemma SortedHeads<T(!new)>(a: seq<T>, b: seq<T>, leq: (T, T) -> bool)
    requires Ordering(leq) && StrictlySorted(a, leq) && Sorted(b, leq) && multiset(a) == multiset(b)
    requires a != [] && b != []
    ensures a[0] == b[0]
  {
    SameElements(a, b, a[0]);
    SameElements(a, b, b[0]);
    var j :| 0 <= j < |a| && a[j] == b[0];
    var m :| 0 <= m < |b| && b[m] == a[0];
    assert leq(b[0], a[0]) by { if m == 0 { assert leq(a[0], a[0]); } }
    assert j == 0;
  }

  lemma TailMultiset<T>(s: seq<T>)
    requires s != []
    ensures multiset(s[1..]) == multiset(s) - multiset{s[0]}
  {
    assert s == [s[0]] + s[1..];
  }

  lemma SortedTails<T(!new)>(a: seq<T>, b: seq<T>, leq: (T, T) -> bool)
    requires a != [] && b != [] && StrictlySorted(a, leq) && Sorted(b, leq)
    ensures StrictlySorted(a[1..], leq) && Sorted(b[1..], leq)
  {
  }

  lemma SameTails<T>(a: seq<T>, b: seq<T>)
    requires a != [] && b != [] && a[0] == b[0] && multiset(a) == multiset(b)
    ensures multiset(a[1..]) == multiset(b[1..])
  {
    TailMultiset(a);
    TailMultiset(b);
  }

  lemma HeadAndTail<T>(a: seq<T>, b: seq<T>)
    requires a != [] && b != [] && a[0] == b[0] && a[1..] == b[1..]
    ensures a == b
  {
    assert a == [a[0]] + a[1..] && b == [b[0]] + b[1..];
  }

  lemma SameLength<T>(a: seq<T>, b: seq<T>)
    requires multiset(a) == multiset(b)
    ensures |a| == |b|
  {
    assert |a| == |multiset(a)| && |b| == |multiset(b)|;
  }

  /** A strictly sorted arrangement is the only sorted one. */
  lemma {:induction false} SortedUnique<T(!new)>(a: seq<T>, b: seq<T>, leq: (T, T) -> bool)
    requires Ordering(leq) && StrictlySorted(a, leq) && Sorted(b, leq) && multiset(a) == multiset(b)
    ensures a == b
  {
    SameLength(a, b);
    if a != [] {
      SortedHeads(a, b, leq);
      SortedTails(a, b, leq);
      SameTails(a, b);
      SortedUnique(a[1..], b[1..], leq);
      HeadAndTail(a, b);
    }
  }

  function Filter<T>(s: seq<T>, p: T -> bool): seq<T> {
    if s == [] then [] else (if p(s[0]) then [s[0]] else []) + Filter(s[1..], p)
  }

  lemma {:induction false} FilterPlace<T(!new)>(x: T, s: seq<T>, p: T -> bool, leq: (T, T) -> bool, leq2: (T, T) -> bool)
    requires Ordering(leq) && Sorted(s, leq)
    requires forall y, z :: p(y) && p(z) ==> leq(y, z) == leq2(y, z)
    ensures Filter(Place(x, s, leq), p) == if p(x) then Place(x, Filter(s, p), leq2) else Filter(s, p)
  {
    if s == [] {
      assert Filter([x][1..], p) == [];
    } else if leq(x, s[0]) {
      assert ([x] + s)[1..] == s;
      if p(x) && Filter(s, p) != [] {
        FilterMembers(s, p, Filter(s, p)[0]);
        var i :| 0 <= i < |s| && s[i] == Filter(s, p)[0];
        assert leq(s[0], s[i]) || i == 0;
      }
    } else {
      assert ([s[0]] + Place(x, s[1..], leq))[1..] == Place(x, s[1..], leq);
      FilterPlace(x, s[1..], p, leq, leq2);
      if p(s[0]) {
        assert Filter(s, p)[1..] == Filter(s[1..], p);
      } else {
        assert Filter(s, p) == Filter(s[1..], p);
      }
    }
  }

  lemma {:induction false} FilterMembers<T>(s: seq<T>, p: T -> bool, x: T)
    ensures x in Filter(s, p) <==> x in s && p(x)
  {
    if s != [] { FilterMembers(s[1..], p, x); }
  }

  lemma {:induction false} FilterLast<T>(s: seq<T>, p: T -> bool)
    requires s != []
    ensures Filter(s, p) == Filter(s[..|s| - 1], p) + if p(s[|s| - 1]) then [s[|s| - 1]] else []
  {
    if |s| == 1 {
      assert s[1..] == [] && s[..0] == [];
      assert Filter(s[1..], p) == [] && Filter(s[..0], p) == [];
    } else {
      assert s[1..][..|s| - 2] == s[..|s| - 1][1..];
      FilterLast(s[1..], p);
    }
  }

  lemma {:induction false} FilterNone<T>(s: seq<T>, p: T -> bool)
    requires forall i :: 0 <= i < |s| ==> !p(s[i])
    ensures Filter(s, p) == []
  {
    if s != [] { FilterNone(s[1..], p); }
  }

  lemma {:induction false} FilterAlike<T>(s: seq<T>, p: T -> bool, q: T -> bool)
    requires forall x :: x in s ==> p(x) == q(x)
    ensures Filter(s, p) == Filter(s, q)
  {
    if s != [] {
      assert s[0] in s;
      FilterAlike(s[1..], p, q);
    }
  }

  /** Stability: sorting and then keeping some elements is the same as keeping
      them first and sorting by any order that agrees on them. */
  lemma {:induction false} FilterSort<T(!new)>(s: seq<T>, p: T -> bool, leq: (T, T) -> bool, leq2: (T, T) -> bool)
    requires Ordering(leq)
    requires forall y, z :: p(y) && p(z) ==> leq(y, z) == leq2(y, z)
    ensures Filter(StableSort(s, leq), p) == StableSort(Filter(s, p), leq2)
  {
    if s != [] {
      FilterSort(s[1..], p, leq, leq2);
      SortSorted(s[1..], leq);
      FilterPlace(s[0], StableSort(s[1..], leq), p, leq, leq2);
      if p(s[0]) {
        assert Filter(s, p)[1..] == Filter(s[1..], p);
      } else {
        assert Filter(s, p) == Filter(s[1..], p);
      }
    }
  }

  /** Filtering keeps the order of what it keeps. */
  lemma {:induction false} FilterOrder<T>(s: seq<T>, p: T -> bool, i: nat, j: nat) returns (a: nat, b: nat)
    requires i < j < |s| && p(s[i]) && p(s[j])
    ensures a < b < |Filter(s, p)| && Filter(s, p)[a] == s[i] && Filter(s, p)[b] == s[j]
  {
    if i == 0 {
      a := 0;
      b := FilterIndex(s[1..], p, j - 1);
      b := b + 1;
    } else {
      a, b := FilterOrder(s[1..], p, i - 1, j - 1);
      if p(s[0]) { a, b := a + 1, b + 1; }
    }
  }

  lemma {:induction false} FilterIndex<T>(s: seq<T>, p: T -> bool, i: nat) returns (a: nat)
    requires i < |s| && p(s[i])
    ensures a < |Filter(s, p)| && Filter(s, p)[a] == s[i]
  {
    if i == 0 {
      a := 0;
    } else {
      a := FilterIndex(s[1..], p, i - 1);
      if p(s[0]) { a := a + 1; }
    }
  }

  function MapSeq<T, U>(s: seq<T>, f: T -> U): seq<U> {
    seq(|s|, i requires 0 <= i < |s| => f(s[i]))
  }

  function Omit<T>(s: seq<T>, i: nat): seq<T>
    requires i < |s|
  {
    s[..i] + s[i + 1..]
  }

  lemma OmitMultiset<T>(s: seq<T>, i: nat)
    requires i < |s|
    ensures multiset(s) == multiset{s[i]} + multiset(Omit(s, i))
    ensures multiset(Omit(s, i)) == multiset(s) - multiset{s[i]}
  {
    assert s == s[..i] + [s[i]] + s[i + 1..];
  }

  lemma MapOmit<T, U>(s: seq<T>, f: T -> U, i: nat)
    requires i < |s|
    ensures multiset(MapSeq(s, f)) == multiset{f(s[i])} + multiset(MapSeq(Omit(s, i), f))
  {
    OmitMultiset(MapSeq(s, f), i);
    assert Omit(MapSeq(s, f), i) == MapSeq(Omit(s, i), f);
  }

  lemma {:induction false} MapMultiset<T, U>(a: seq<T>, b: seq<T>, f: T -> U)
    requires multiset(a) == multiset(b)
    ensures multiset(MapSeq(a, f)) == multiset(MapSeq(b, f))
  {
    SameLength(a, b);
    if a != [] {
      SameElements(a, b, a[0]);
      var i :| 0 <= i < |b| && b[i] == a[0];
      OmitMultiset(a, 0);
      OmitMultiset(b, i);
      MapMultiset(Omit(a, 0), Omit(b, i), f);
      MapOmit(a, f, 0);
      MapOmit(b, f, i);
    }
  }

  lemma {:induction false} FilterMap<T>(s: seq<T>, p: T -> bool, f: T -> T)
    requires forall x :: p(f(x)) == p(x)
    ensures Filter(MapSeq(s, f), p) == MapSeq(Filter(s, p), f)
  {
    if s != [] {
      FilterMap(s[1..], p, f);
      assert MapSeq(s, f)[0] == f(s[0]);
      assert MapSeq(s, f)[1..] == MapSeq(s[1..], f);
    }
  }
}
