/** Finding a board: the walk up from a directory, the home backstop, and the
    resolution of a path to its `.kanban` directory. Paths are canonical, as
    sequences of components below the root. */
module Discovery {
  import opened Json

  type Path = seq<string>

  /** The file tree: which paths are directories. */
  type Tree = Path -> bool

  const KANBAN := ".kanban"

  function Parent(p: Path): Path
    requires p != []
  {
    p[..|p| - 1]
  }

  /** A directory that is itself a `.kanban` directory. */
  predicate IsKanbanDir(isDir: Tree, p: Path) {
    p != [] && p[|p| - 1] == KANBAN && isDir(p)
  }

  predicate HoldsBoard(isDir: Tree, p: Path) { isDir(p + [KANBAN]) }

  /** `q` is the longest prefix of `p` that satisfies `mark`. */
  ghost predicate Nearest(p: Path, mark: Path -> bool, q: Path) {
    q <= p && mark(q) && forall n :: |q| < n <= |p| ==> !mark(p[..n])
  }

  ghost predicate NoneMarked(p: Path, mark: Path -> bool) {
    forall n :: 0 <= n <= |p| ==> !mark(p[..n])
  }

  function Holds(isDir: Tree): Path -> bool { (p: Path) => HoldsBoard(isDir, p) }

  function Kanban(isDir: Tree): Path -> bool { (p: Path) => IsKanbanDir(isDir, p) }

  function Climb(p: Path, mark: Path -> bool): (r: Option<Path>)
    ensures r.Some? ==> Nearest(p, mark, r.value)
    ensures r.None? ==> NoneMarked(p, mark)
    decreases |p|
  {
    assert p[..|p|] == p;
    if mark(p) then Some(p)
    else if p == [] then None
    else
      var up := Climb(Parent(p), mark);
      assert forall n :: 0 <= n < |p| ==> Parent(p)[..n] == p[..n];
      up
  }

  /** `discover_board` */
  method DiscoverBoard(isDir: Tree, start: Path) returns (r: Option<Path>)
    ensures r == Discover(isDir, start)
  {
    var current := start;
    while true
      invariant current <= start && Climb(start, Holds(isDir)) == Climb(current, Holds(isDir))
      decreases |current|
    {
      var candidate := current + [KANBAN];
      if isDir(candidate) {
        return Some(current);
      }
      if current == [] {
        return None;
      }
      current := Parent(current);
    }
  }

  function Discover(isDir: Tree, start: Path): Option<Path> { Climb(start, Holds(isDir)) }

  function TryHomeBackstop(isDir: Tree, cwd: Path, home: Option<Path>): Option<Path> {
    if home.None? then None
    else if home.value <= cwd then None
    else Discover(isDir, home.value)
  }

  /** The first recent board, if its path is still a directory. */
  function TryMruFallback(isDir: Tree, recent: seq<Path>): Option<Path> {
    if recent != [] && isDir(recent[0]) then Some(recent[0]) else None
  }

  function OrElse(a: Option<Path>, b: Option<Path>): Option<Path> { if a.Some? then a else b }

  function DiscoverFromEnvironment(isDir: Tree, cwd: Path, home: Option<Path>, recent: seq<Path>): Option<Path> {
    OrElse(Discover(isDir, cwd), OrElse(TryHomeBackstop(isDir, cwd, home), TryMruFallback(isDir, recent)))
  }

  /** `resolve_kanban_path` */
  function Resolve(isDir: Tree, p: Path): Path {
    if IsKanbanDir(isDir, p) then p
    else
      match Climb(p, Kanban(isDir))
      case Some(inside) => inside
      case None => p + [KANBAN]
  }

  /** `p` is a `.kanban` directory or lies below one. */
  ghost predicate Inside(isDir: Tree, p: Path) {
    exists n :: 0 <= n <= |p| && IsKanbanDir(isDir, p[..n])
  }

  /** The walk finds the nearest ancestor holding a board, and nothing else. */
  lemma DiscoverIsNearest(isDir: Tree, start: Path, d: Path)
    ensures Discover(isDir, start) == Some(d) <==> Nearest(start, Holds(isDir), d)
    ensures Discover(isDir, start) == Some(d) <==>
            d <= start && isDir(d + [".kanban"]) && forall n :: |d| < n <= |start| ==> !isDir(start[..n] + [".kanban"])
  {
    var r := Discover(isDir, start);
    if Nearest(start, Holds(isDir), d) {
      assert start[..|d|] == d;
      if r.Some? {
        assert start[..|r.value|] == r.value;
        assert |d| == |r.value|;
      }
    }
  }

  /** Skipping the home directory after walking through it loses nothing: the
      discovery equals one that always walks up from home as well. */
  lemma BackstopLosesNothing(isDir: Tree, cwd: Path, home: Path, recent: seq<Path>)
    ensures home <= cwd && Discover(isDir, cwd) == None ==> Discover(isDir, home) == None
    ensures DiscoverFromEnvironment(isDir, cwd, Some(home), recent) ==
            OrElse(Discover(isDir, cwd), OrElse(Discover(isDir, home), TryMruFallback(isDir, recent)))
  {
    if home <= cwd && Discover(isDir, cwd) == None {
      forall n | 0 <= n <= |home| ensures !Holds(isDir)(home[..n]) {
        assert home[..n] == cwd[..n];
        assert !Holds(isDir)(cwd[..n]);
      }
      assert forall d :: d <= home ==> home[..|d|] == d;
    }
  }

  /** The board found from the environment: the nearest above the working
      directory; if there is none, the nearest above home; and if there is none
      either, the first recent board that is still a directory. */
  lemma FoundFromEnvironment(isDir: Tree, cwd: Path, home: Option<Path>, recent: seq<Path>, d: Path)
    ensures DiscoverFromEnvironment(isDir, cwd, home, recent) == Some(d) <==>
            if exists up :: Nearest(cwd, Holds(isDir), up) then Nearest(cwd, Holds(isDir), d)
            else if home.Some? && exists up :: Nearest(home.value, Holds(isDir), up) then Nearest(home.value, Holds(isDir), d)
            else recent != [] && isDir(recent[0]) && d == recent[0]
  {
    DiscoverIsNearest(isDir, cwd, d);
    if up :| Nearest(cwd, Holds(isDir), up) {
      DiscoverIsNearest(isDir, cwd, up);
    } else {
      assert Discover(isDir, cwd) == None;
      if home.Some? {
        BackstopLosesNothing(isDir, cwd, home.value, recent);
        DiscoverIsNearest(isDir, home.value, d);
        if up :| Nearest(home.value, Holds(isDir), up) { DiscoverIsNearest(isDir, home.value, up); }
      }
    }
  }

  lemma NotKanban(isDir: Tree, p: Path)
    ensures forall n :: 0 < n <= |p| ==> (Kanban(isDir)(p[..n]) <==> p[n - 1] == ".kanban" && isDir(p[..n]))
  {
    forall n | 0 < n <= |p| ensures p[..n][|p[..n]| - 1] == p[n - 1] {
    }
  }

  /** What a path resolves to: the nearest `.kanban` directory it lies in, or
      its own `.kanban` child. */
  lemma ResolveCases(isDir: Tree, p: Path)
    ensures Inside(isDir, p) ==> Nearest(p, Kanban(isDir), Resolve(isDir, p))
    ensures !Inside(isDir, p) ==> Resolve(isDir, p) == p + [KANBAN]
    ensures var r := Resolve(isDir, p);
            && r != [] && r[|r| - 1] == ".kanban"
            && ((r <= p && isDir(r) && forall n :: |r| < n <= |p| ==> p[n - 1] != ".kanban" || !isDir(p[..n])) ||
                (r == p + [".kanban"] && forall n :: 0 < n <= |p| ==> p[n - 1] != ".kanban" || !isDir(p[..n])))
  {
    assert p[..|p|] == p;
    NotKanban(isDir, p);
    var c := Climb(p, Kanban(isDir));
    if c.Some? {
      assert p[..|c.value|] == c.value;
      assert IsKanbanDir(isDir, p[..|c.value|]);
    }
    if IsKanbanDir(isDir, p) { assert IsKanbanDir(isDir, p[..|p|]); }
    if Inside(isDir, p) {
      var n :| 0 <= n <= |p| && IsKanbanDir(isDir, p[..n]);
      assert Kanban(isDir)(p[..n]);
    }
  }

  /** Resolving again changes nothing exactly when the result exists. */
  lemma ResolveIdempotent(isDir: Tree, p: Path)
    ensures Resolve(isDir, Resolve(isDir, p)) == Resolve(isDir, p) <==> isDir(Resolve(isDir, p))
  {
    ResolveCases(isDir, p);
    var r := Resolve(isDir, p);
    ResolveCases(isDir, r);
    if Inside(isDir, p) {
      assert IsKanbanDir(isDir, r);
    } else {
      assert r[|r| - 1] == KANBAN;
      if !isDir(r) {
        forall n | 0 <= n <= |r| ensures !IsKanbanDir(isDir, r[..n]) {
          if n < |r| {
            assert r[..n] == p[..n];
          } else {
            assert r[..n] == r;
          }
        }
        assert !Inside(isDir, r);
      }
    }
  }

  lemma InsidePrefix(isDir: Tree, p: Path, q: Path)
    requires q <= p && Inside(isDir, q)
    ensures Inside(isDir, p)
  {
    var n :| 0 <= n <= |q| && IsKanbanDir(isDir, q[..n]);
    assert p[..n] == q[..n];
  }

  /** Inside a `.kanban` directory, discovering a board and resolving it leads
      back to that directory exactly when some directory from there down to the
      path holds a board, or it is not itself nested in another one. */
  lemma DiscoverThenResolveInside(isDir: Tree, p: Path)
    requires Inside(isDir, p)
    ensures var own := Resolve(isDir, p);
            var d := Discover(isDir, p);
            && own != [] && d.Some?
            && (Resolve(isDir, d.value) == own <==>
                  (exists n :: |own| <= n <= |p| && HoldsBoard(isDir, p[..n])) || !Inside(isDir, Parent(own)))
  {
    ResolveCases(isDir, p);
    var own := Resolve(isDir, p);
    var home := Parent(own);
    assert own <= p && own == home + [KANBAN];
    assert p[..|home|] == home;
    assert Holds(isDir)(home);
    assert Holds(isDir)(p[..|home|]);
    var d := Discover(isDir, p).value;
    assert |home| <= |d|;
    assert p[..|d|] == d && p[..|own|] == own;
    ResolveCases(isDir, d);
    if n :| |own| <= n <= |p| && HoldsBoard(isDir, p[..n]) {
      assert Holds(isDir)(p[..n]);
      assert |own| <= |d|;
    }
    if own <= d {
      assert HoldsBoard(isDir, p[..|d|]);
      assert d[..|own|] == own;
      assert Inside(isDir, d);
      var r := Resolve(isDir, d);
      assert p[..|r|] == r;
      assert Kanban(isDir)(d[..|own|]);
      assert |own| <= |r|;
      assert Kanban(isDir)(p[..|r|]);
    } else {
      assert d == home;
      if Inside(isDir, home) {
        assert |Resolve(isDir, home)| <= |home| < |own|;
      }
    }
  }

  /** So where no `.kanban` directory is nested in another, it always does. */
  lemma UnnestedRoundTrip(isDir: Tree, p: Path)
    requires Inside(isDir, p)
    requires forall k :: IsKanbanDir(isDir, k) ==> !Inside(isDir, Parent(k))
    ensures Discover(isDir, p).Some?
    ensures Resolve(isDir, Discover(isDir, p).value) == Resolve(isDir, p)
  {
    DiscoverThenResolveInside(isDir, p);
    ResolveCases(isDir, p);
    assert IsKanbanDir(isDir, Resolve(isDir, p));
  }

  /** Outside every `.kanban` directory, the discovered board resolves to the
      `.kanban` child that was found; the path itself resolves there exactly
      when the walk did not have to move. */
  lemma DiscoverThenResolveOutside(isDir: Tree, p: Path)
    requires !Inside(isDir, p) && Discover(isDir, p).Some?
    ensures var d := Discover(isDir, p).value;
            && Resolve(isDir, d) == d + [KANBAN] && isDir(Resolve(isDir, d))
            && (Resolve(isDir, d) == Resolve(isDir, p) <==> d == p)
  {
    var d := Discover(isDir, p).value;
    if Inside(isDir, d) { InsidePrefix(isDir, p, d); }
    ResolveCases(isDir, p);
    ResolveCases(isDir, d);
    assert Holds(isDir)(d);
    if d + [KANBAN] == p + [KANBAN] {
      assert (d + [KANBAN])[..|d|] == d && (p + [KANBAN])[..|p|] == p;
    }
  }
}
