/** Paths of links, and which of them run through a Kanban app bundle. */
module InstallPaths {

  /** A path component: text, or bytes that are not UTF-8. */
  datatype Component = Utf8(s: string) | NotUtf8(raw: seq<nat>)

  type Path = seq<Component>

  /** The components that are text, in order. */
  function Texts(p: Path): seq<string> {
    if p == [] then [] else (if p[0].Utf8? then [p[0].s] else []) + Texts(p[1..])
  }

  predicate BundleAt(t: seq<string>, i: int) {
    0 <= i && i + 4 <= |t| && t[i] == "Kanban.app" && t[i + 1] == "Contents" && t[i + 2] == "MacOS" && t[i + 3] == "kanban"
  }

  /** `is_inside_kanban_bundle` */
  predicate InsideKanbanBundle(p: Path) {
    exists i :: 0 <= i < |Texts(p)| && BundleAt(Texts(p), i)
  }

  /** Two components with nothing but non-text between them. */
  ghost predicate Neighbours(p: Path, i: nat, a: string, j: nat, b: string) {
    i < j < |p| && p[i] == Utf8(a) && p[j] == Utf8(b) && forall q :: i < q < j ==> p[q].NotUtf8?
  }

  ghost predicate Span(p: Path, i: nat, j: nat, k: nat, m: nat) {
    && Neighbours(p, i, "Kanban.app", j, "Contents")
    && Neighbours(p, j, "Contents", k, "MacOS")
    && Neighbours(p, k, "MacOS", m, "kanban")
  }

  /** The components Kanban.app, Contents, MacOS and kanban in a row, components
      that are not text passed over. */
  ghost predicate RunsThroughBundle(p: Path) {
    exists i: nat, j: nat, k: nat, m: nat :: Span(p, i, j, k, m)
  }

  lemma {:induction false} TextsConcat(a: Path, b: Path)
    ensures Texts(a + b) == Texts(a) + Texts(b)
  {
    if a == [] {
      assert a + b == b;
    } else {
      assert (a + b)[1..] == a[1..] + b;
      TextsConcat(a[1..], b);
    }
  }

  lemma {:induction false} NoTexts(p: Path)
    ensures Texts(p) == [] <==> forall q :: 0 <= q < |p| ==> p[q].NotUtf8?
  {
    if p != [] {
      NoTexts(p[1..]);
      forall q | 0 < q < |p| ensures p[q] == p[1..][q - 1] {
      }
    }
  }

  /** Where a text stands in the path. */
  lemma {:induction false} TextAt(p: Path, x: nat) returns (i: nat)
    requires x < |Texts(p)|
    ensures i < |p| && p[i] == Utf8(Texts(p)[x]) && |Texts(p[..i])| == x
  {
    if p[0].Utf8? && x == 0 {
      i := 0;
    } else {
      i := TextAt(p[1..], if p[0].Utf8? then x - 1 else x);
      i := i + 1;
      assert p[..i] == [p[0]] + p[1..][..i - 1];
      TextsConcat([p[0]], p[1..][..i - 1]);
      assert [p[0]][1..] == [];
    }
  }

  lemma PrefixTexts(p: Path, i: nat, j: nat)
    requires i < j <= |p|
    ensures Texts(p[..j]) == Texts(p[..i]) + Texts([p[i]]) + Texts(p[i + 1..j])
  {
    assert p[..j] == (p[..i] + [p[i]]) + p[i + 1..j];
    TextsConcat(p[..i] + [p[i]], p[i + 1..j]);
    TextsConcat(p[..i], [p[i]]);
  }

  /** Consecutive texts are neighbours. */
  lemma TextsNeighbour(p: Path, i: nat, a: string, j: nat, b: string)
    requires i < |p| && j < |p| && p[i] == Utf8(a) && p[j] == Utf8(b)
    requires |Texts(p[..j])| == |Texts(p[..i])| + 1
    ensures Neighbours(p, i, a, j, b)
  {
    if j < i { PrefixTexts(p, j, i); }
    PrefixTexts(p, i, j);
    assert [p[i]][1..] == [];
    NoTexts(p[i + 1..j]);
    forall q | i < q < j ensures p[q].NotUtf8? {
      assert p[i + 1..j][q - i - 1] == p[q];
    }
  }

  /** Neighbours are consecutive texts. */
  lemma NeighbourTexts(p: Path, i: nat, a: string, j: nat, b: string)
    requires Neighbours(p, i, a, j, b)
    ensures Texts(p[..j]) == Texts(p[..i]) + [a]
  {
    PrefixTexts(p, i, j);
    assert [p[i]][1..] == [];
    NoTexts(p[i + 1..j]);
  }

  lemma InsideRuns(p: Path, x: nat)
    requires BundleAt(Texts(p), x)
    ensures RunsThroughBundle(p)
  {
    var i := TextAt(p, x);
    var j := TextAt(p, x + 1);
    var k := TextAt(p, x + 2);
    var m := TextAt(p, x + 3);
    TextsNeighbour(p, i, "Kanban.app", j, "Contents");
    TextsNeighbour(p, j, "Contents", k, "MacOS");
    TextsNeighbour(p, k, "MacOS", m, "kanban");
    assert Span(p, i, j, k, m);
  }

  lemma SpanInside(p: Path, i: nat, j: nat, k: nat, m: nat)
    requires Span(p, i, j, k, m)
    ensures BundleAt(Texts(p), |Texts(p[..i])|)
  {
    NeighbourTexts(p, i, "Kanban.app", j, "Contents");
    NeighbourTexts(p, j, "Contents", k, "MacOS");
    NeighbourTexts(p, k, "MacOS", m, "kanban");
    PrefixTexts(p, m, |p|);
    assert p[..|p|] == p && [p[m]][1..] == [];
    var t := Texts(p[..i]);
    assert Texts(p[..m]) == t + ["Kanban.app", "Contents", "MacOS"];
    assert Texts(p) == t + ["Kanban.app", "Contents", "MacOS", "kanban"] + Texts(p[m + 1..]);
  }

  /** The test on the texts finds exactly the paths that run through a bundle. */
  lemma InsideIsThrough(p: Path)
    ensures InsideKanbanBundle(p) <==> RunsThroughBundle(p)
  {
    if InsideKanbanBundle(p) {
      var x :| 0 <= x < |Texts(p)| && BundleAt(Texts(p), x);
      InsideRuns(p, x);
    }
    if RunsThroughBundle(p) {
      var i: nat, j: nat, k: nat, m: nat :| Span(p, i, j, k, m);
      SpanInside(p, i, j, k, m);
    }
  }

  /** A bundled CLI's path ends in the four components. */
  lemma BundledRunsThrough(p: Path)
    requires |p| >= 4 && p[|p| - 4..] == [Utf8("Kanban.app"), Utf8("Contents"), Utf8("MacOS"), Utf8("kanban")]
    ensures RunsThroughBundle(p)
  {
    var n := |p| - 4;
    assert p[n] == p[n..][0] && p[n + 1] == p[n..][1] && p[n + 2] == p[n..][2] && p[n + 3] == p[n..][3];
    assert Span(p, n, n + 1, n + 2, n + 3);
  }

  /** Without a component of one of the four names a path runs through none. */
  lemma ForeignPath(p: Path)
    requires exists name :: name in ["Kanban.app", "Contents", "MacOS", "kanban"] && Utf8(name) !in p
    ensures !InsideKanbanBundle(p)
  {
    InsideIsThrough(p);
  }
}
