/** The default methods of the `Mesh` trait: the adjacency test, the four
    diagonal neighbours, the four corners and the centre of a cell.

    Cells are compared through their anchors: two valid cells of the same
    level are adjacent on side `d` exactly when the second one's anchor is
    the first one's displaced by one cell size in direction `d`. */
module MeshAdjacency {
  import opened MeshBasics
  import opened Mesh1
  import opened MeshCode
  import opened MeshStep
  import opened MeshGrid

  /** The anchor of `c` is the anchor of `a` moved by `dlat` and `dlon`. */
  predicate DisplacedBy(b: Bounds, k: Level, a: string, c: string, dlat: int, dlon: int)
    requires ValidMesh(b, k, a) && ValidMesh(b, k, c)
  {
    South(b, k, c) == South(b, k, a) + dlat && West(b, k, c) == West(b, k, a) + dlon
  }

  /** The cell `c` lies one cell over from `a` in direction `d`. */
  predicate Displaced(b: Bounds, k: Level, a: string, c: string, d: Dir)
    requires ValidMesh(b, k, a) && ValidMesh(b, k, c)
  {
    DisplacedBy(b, k, a, c, DLat(k, d), DLon(k, d))
  }

  /** A move lands on `c` exactly when `c` is the cell one over in that direction. */
  lemma StepIffDisplaced(b: Bounds, k: Level, a: string, c: string, d: Dir)
    requires b.Valid() && ValidMesh(b, k, a) && ValidMesh(b, k, c)
    ensures Step(b, k, a, d) == Some(c) <==> Displaced(b, k, a, c, d)
  {
    StepMoves(b, k, a, d);
    if Displaced(b, k, a, c, d) {
      InDomain(b, k, c);
      var r := Step(b, k, a, d).value;
      AnchorDetermines(b, k, r, c);
    }
  }

  /** No cell is one over from another in two different directions. */
  lemma DisplacedUnique(b: Bounds, k: Level, a: string, c: string, d: Dir, e: Dir)
    requires ValidMesh(b, k, a) && ValidMesh(b, k, c)
    requires Displaced(b, k, a, c, d) && Displaced(b, k, a, c, e)
    ensures d == e
  {
  }

  /** `is_joining`: the first of north, east, south and west whose neighbour
      is `c`, or no side at all. */
  function IsJoining(b: Bounds, k: Level, a: string, c: string): (r: Joining)
    requires b.Valid() && ValidMesh(b, k, a) && ValidMesh(b, k, c)
    ensures r.Joins? ==> Step(b, k, a, r.side) == Some(c)
  {
    if Step(b, k, a, N) == Some(c) then Joins(N)
    else if Step(b, k, a, E) == Some(c) then Joins(E)
    else if Step(b, k, a, S) == Some(c) then Joins(S)
    else if Step(b, k, a, W) == Some(c) then Joins(W)
    else NotJoining
  }

  /** The adjacency test reports side `d` exactly when `c` is the cell one
      over from `a` in direction `d`; the north-east-south-west order of the
      tests never hides an answer, since at most one side fits. */
  lemma JoiningIff(b: Bounds, k: Level, a: string, c: string, d: Dir)
    requires b.Valid() && ValidMesh(b, k, a) && ValidMesh(b, k, c)
    ensures IsJoining(b, k, a, c) == Joins(d) <==> Displaced(b, k, a, c, d)
    ensures IsJoining(b, k, a, c) == Joins(d) <==> Step(b, k, a, d) == Some(c)
  {
    StepIffDisplaced(b, k, a, c, N);
    StepIffDisplaced(b, k, a, c, E);
    StepIffDisplaced(b, k, a, c, S);
    StepIffDisplaced(b, k, a, c, W);
    if Displaced(b, k, a, c, d) {
      var r := IsJoining(b, k, a, c);
      if r.Joins? {
        DisplacedUnique(b, k, a, c, d, r.side);
      }
    }
  }

  /** The adjacency test answers "none" exactly when no move reaches `c`. */
  lemma NotJoiningIff(b: Bounds, k: Level, a: string, c: string)
    requires b.Valid() && ValidMesh(b, k, a) && ValidMesh(b, k, c)
    ensures IsJoining(b, k, a, c) == NotJoining <==>
      forall d: Dir :: !Displaced(b, k, a, c, d)
  {
    JoiningIff(b, k, a, c, N);
    JoiningIff(b, k, a, c, E);
    JoiningIff(b, k, a, c, S);
    JoiningIff(b, k, a, c, W);
  }

  /** Adjacency is symmetric: if `c` joins `a` on side `d`, then `a` joins
      `c` on the opposite side. */
  lemma JoiningSymmetric(b: Bounds, k: Level, a: string, c: string, d: Dir)
    requires b.Valid() && ValidMesh(b, k, a) && ValidMesh(b, k, c)
    requires IsJoining(b, k, a, c) == Joins(d)
    ensures IsJoining(b, k, c, a) == Joins(Opposite(d))
  {
    JoiningIff(b, k, a, c, d);
    JoiningIff(b, k, c, a, Opposite(d));
  }

  /** A cell is never adjacent to itself. */
  lemma NotJoiningSelf(b: Bounds, k: Level, a: string)
    requires b.Valid() && ValidMesh(b, k, a)
    ensures IsJoining(b, k, a, a) == NotJoining
  {
    NotJoiningIff(b, k, a, a);
  }

  // ---------------------------------------------------------------------
  // Diagonal neighbours.

  /** One move after another, stopping at the first failure. */
  function Then(b: Bounds, k: Level, code: string, first: Dir, second: Dir): (r: Option<string>)
    requires b.Valid() && ValidMesh(b, k, code)
  {
    var m :- Step(b, k, code, first);
    Step(b, k, m, second)
  }

  /** `north_east_mesh`: the east neighbour of the north neighbour. */
  function NorthEastMesh(b: Bounds, k: Level, code: string): (r: Option<string>)
    requires b.Valid() && ValidMesh(b, k, code)
  {
    Then(b, k, code, N, E)
  }

  /** `south_east_mesh`: the east neighbour of the south neighbour. */
  function SouthEastMesh(b: Bounds, k: Level, code: string): (r: Option<string>)
    requires b.Valid() && ValidMesh(b, k, code)
  {
    Then(b, k, code, S, E)
  }

  /** `south_west_mesh`: the west neighbour of the south neighbour. */
  function SouthWestMesh(b: Bounds, k: Level, code: string): (r: Option<string>)
    requires b.Valid() && ValidMesh(b, k, code)
  {
    Then(b, k, code, S, W)
  }

  /** `north_west_mesh`: the west neighbour of the north neighbour. */
  function NorthWestMesh(b: Bounds, k: Level, code: string): (r: Option<string>)
    requires b.Valid() && ValidMesh(b, k, code)
  {
    Then(b, k, code, N, W)
  }

  predicate NorthSouth(d: Dir) { d == N || d == S }

  /** Two moves, a north or south one followed by an east or west one, each
      as `Moved` describes it: the second fails exactly when the start
      touches the border on one of the two sides, and otherwise lands one
      cell height and one cell width away. */
  lemma DiagonalMoved(b: Bounds, k: Level, code: string, first: Dir, second: Dir, m: Option<string>, r: Option<string>)
    requires ValidMesh(b, k, code) && NorthSouth(first) && !NorthSouth(second)
    requires Moved(b, k, code, first, m)
    requires m.Some? ==> Moved(b, k, m.value, second, r)
    requires m.None? ==> r.None?
    ensures r.None? <==> Edge(b, k, code, first) || Edge(b, k, code, second)
    ensures r.Some? ==> ValidMesh(b, k, r.value)
                        && DisplacedBy(b, k, code, r.value, DLat(k, first), DLon(k, second))
  {
    if m.None? {
      InDomain(b, k, code);
    }
  }

  /** A diagonal move fails exactly when the cell touches the border on one
      of its two sides, and otherwise lands on the valid cell displaced by
      one cell height and one cell width. */
  lemma ThenDiagonal(b: Bounds, k: Level, code: string, first: Dir, second: Dir)
    requires b.Valid() && ValidMesh(b, k, code) && NorthSouth(first) && !NorthSouth(second)
    ensures var r := Then(b, k, code, first, second);
      && (r.None? <==> Edge(b, k, code, first) || Edge(b, k, code, second))
      && (r.Some? ==> ValidMesh(b, k, r.value)
                      && DisplacedBy(b, k, code, r.value, DLat(k, first), DLon(k, second)))
  {
    StepMoves(b, k, code, first);
    var m := Step(b, k, code, first);
    if m.Some? {
      StepMoves(b, k, m.value, second);
    }
    DiagonalMoved(b, k, code, first, second, m, Then(b, k, code, first, second));
  }

  /** A cell one cell height and one cell width away is not adjacent. */
  lemma DiagonalNotJoining(b: Bounds, k: Level, a: string, c: string, first: Dir, second: Dir)
    requires b.Valid() && ValidMesh(b, k, a) && ValidMesh(b, k, c)
    requires NorthSouth(first) && !NorthSouth(second)
    requires DisplacedBy(b, k, a, c, DLat(k, first), DLon(k, second))
    ensures IsJoining(b, k, a, c) == NotJoining
  {
    NotJoiningIff(b, k, a, c);
  }

  /** The diagonal neighbour in the given two directions: where it exists,
      it is where `ThenDiagonal` says and is not adjacent. */
  lemma ThenDiagonalNotJoining(b: Bounds, k: Level, code: string, first: Dir, second: Dir)
    requires b.Valid() && ValidMesh(b, k, code) && NorthSouth(first) && !NorthSouth(second)
    ensures var r := Then(b, k, code, first, second);
      r.Some? ==> IsJoining(b, k, code, r.value) == NotJoining
  {
    ThenDiagonal(b, k, code, first, second);
    var r := Then(b, k, code, first, second);
    if r.Some? {
      DiagonalNotJoining(b, k, code, r.value, first, second);
    }
  }

  /** All four diagonal neighbours of the trait, as compositions of two moves. */
  lemma DiagonalMeshes(b: Bounds, k: Level, code: string)
    requires b.Valid() && ValidMesh(b, k, code)
    ensures var r := NorthEastMesh(b, k, code);
      && (r.None? <==> Edge(b, k, code, N) || Edge(b, k, code, E))
      && (r.Some? ==> ValidMesh(b, k, r.value)
                      && DisplacedBy(b, k, code, r.value, Height(k), Width(k))
                      && IsJoining(b, k, code, r.value) == NotJoining)
    ensures var r := SouthEastMesh(b, k, code);
      && (r.None? <==> Edge(b, k, code, S) || Edge(b, k, code, E))
      && (r.Some? ==> ValidMesh(b, k, r.value)
                      && DisplacedBy(b, k, code, r.value, 0 - Height(k), Width(k))
                      && IsJoining(b, k, code, r.value) == NotJoining)
    ensures var r := SouthWestMesh(b, k, code);
      && (r.None? <==> Edge(b, k, code, S) || Edge(b, k, code, W))
      && (r.Some? ==> ValidMesh(b, k, r.value)
                      && DisplacedBy(b, k, code, r.value, 0 - Height(k), 0 - Width(k))
                      && IsJoining(b, k, code, r.value) == NotJoining)
    ensures var r := NorthWestMesh(b, k, code);
      && (r.None? <==> Edge(b, k, code, N) || Edge(b, k, code, W))
      && (r.Some? ==> ValidMesh(b, k, r.value)
                      && DisplacedBy(b, k, code, r.value, Height(k), 0 - Width(k))
                      && IsJoining(b, k, code, r.value) == NotJoining)
  {
    ThenDiagonal(b, k, code, N, E);
    ThenDiagonalNotJoining(b, k, code, N, E);
    ThenDiagonal(b, k, code, S, E);
    ThenDiagonalNotJoining(b, k, code, S, E);
    ThenDiagonal(b, k, code, S, W);
    ThenDiagonalNotJoining(b, k, code, S, W);
    ThenDiagonal(b, k, code, N, W);
    ThenDiagonalNotJoining(b, k, code, N, W);
  }

  /** Two moves the same way land two cells over: never an adjacent cell. */
  lemma TwoStepsNotJoining(b: Bounds, k: Level, code: string, d: Dir)
    requires b.Valid() && ValidMesh(b, k, code)
    requires Then(b, k, code, d, d).Some?
    ensures IsJoining(b, k, code, Then(b, k, code, d, d).value) == NotJoining
  {
    var m := Step(b, k, code, d).value;
    StepMoves(b, k, code, d);
    StepMoves(b, k, m, d);
    NotJoiningIff(b, k, code, Then(b, k, code, d, d).value);
  }

  // ---------------------------------------------------------------------
  // Corners and centre, in 1/8 arc-second units.

  /** A latitude/longitude pair, `(lat, lon)`. */
  datatype Point = Point(lat: int, lon: int)

  /** `north_east()`: the north edge and the east edge. */
  function NorthEastCorner(b: Bounds, k: Level, code: string): (p: Point)
    requires ValidMesh(b, k, code)
    ensures p.lat == South(b, k, code) + Height(k) && p.lon == West(b, k, code) + Width(k)
  {
    Point(North(b, k, code), East(b, k, code))
  }

  /** `south_east()`: the south edge and the east edge. */
  function SouthEastCorner(b: Bounds, k: Level, code: string): (p: Point)
    requires ValidMesh(b, k, code)
    ensures p.lat == South(b, k, code) && p.lon == West(b, k, code) + Width(k)
  {
    Point(South(b, k, code), East(b, k, code))
  }

  /** `south_west()`: the south edge and the west edge, the anchor. */
  function SouthWestCorner(b: Bounds, k: Level, code: string): (p: Point)
    requires ValidMesh(b, k, code)
    ensures p.lat == South(b, k, code) && p.lon == West(b, k, code)
  {
    Point(South(b, k, code), West(b, k, code))
  }

  /** `north_west()`: the north edge and the west edge. */
  function NorthWestCorner(b: Bounds, k: Level, code: string): (p: Point)
    requires ValidMesh(b, k, code)
    ensures p.lat == South(b, k, code) + Height(k) && p.lon == West(b, k, code)
  {
    Point(North(b, k, code), West(b, k, code))
  }

  /** Neighbouring cells share corners: the north-west corner of a cell is
      the south-west corner of its north neighbour, its south-east corner
      the south-west corner of its east neighbour, and its north-east corner
      the south-west corner of its north-east neighbour. */
  lemma SharedCorners(b: Bounds, k: Level, code: string)
    requires b.Valid() && ValidMesh(b, k, code)
    ensures var n := Step(b, k, code, N);
      n.Some? ==> NorthWestCorner(b, k, code) == SouthWestCorner(b, k, n.value)
    ensures var e := Step(b, k, code, E);
      e.Some? ==> SouthEastCorner(b, k, code) == SouthWestCorner(b, k, e.value)
    ensures var ne := NorthEastMesh(b, k, code);
      ne.Some? ==> NorthEastCorner(b, k, code) == SouthWestCorner(b, k, ne.value)
  {
    StepMoves(b, k, code, N);
    StepMoves(b, k, code, E);
    ThenDiagonal(b, k, code, N, E);
  }

  /** `center()`: the midpoint of the north and south edges and of the east
      and west edges.  It lies strictly inside the cell. */
  function Center(b: Bounds, k: Level, code: string): (c: (real, real))
    requires ValidMesh(b, k, code)
    ensures South(b, k, code) as real < c.0 < North(b, k, code) as real
    ensures West(b, k, code) as real < c.1 < East(b, k, code) as real
  {
    ((North(b, k, code) + South(b, k, code)) as real / 2.0,
     (East(b, k, code) + West(b, k, code)) as real / 2.0)
  }

  /** Different cells of one level have different centres. */
  lemma CenterDetermines(b: Bounds, k: Level, a: string, c: string)
    requires ValidMesh(b, k, a) && ValidMesh(b, k, c)
    requires Center(b, k, a) == Center(b, k, c)
    ensures a == c
  {
    AnchorDetermines(b, k, a, c);
  }

  /** The centre of a cell lies strictly inside every ancestor's cell. */
  lemma CenterInAncestor(b: Bounds, k: Level, j: Level, code: string)
    requires j <= k && ValidMesh(b, k, code)
    ensures var up := Ancestor(b, k, j, code);
      && South(b, j, up) as real < Center(b, k, code).0 < North(b, j, up) as real
      && West(b, j, up) as real < Center(b, k, code).1 < East(b, j, up) as real
  {
    AncestorContains(b, k, j, code);
  }
}
