/** Moving one cell north, east, south or west at any level
    (`north_mesh`, `east_mesh`, `south_mesh`, `west_mesh`).

    A move changes the level's own suffix when it can, and otherwise carries
    into the parent: the parent is moved in the same direction and the suffix
    wraps around to the opposite side.  Every move ends by re-validating the
    new code, so a move off the national domain fails. */
module MeshStep {
  import opened MeshBasics
  import opened Mesh1
  import opened MeshCode

  /** South-north displacement of a move. */
  function DLat(k: Level, d: Dir): int {
    if d == N then Height(k) else if d == S then 0 - Height(k) else 0
  }

  /** West-east displacement of a move. */
  function DLon(k: Level, d: Dir): int {
    if d == E then Width(k) else if d == W then 0 - Width(k) else 0
  }

  /** The cell touches the border of the national domain on side `d`. */
  predicate Edge(b: Bounds, k: Level, code: string, d: Dir)
    requires ValidMesh(b, k, code)
  {
    match d
    case N => North(b, k, code) == LatHi(b)
    case E => East(b, k, code) == LonHi(b)
    case S => South(b, k, code) == LatLo(b)
    case W => West(b, k, code) == LonLo(b)
  }

  /** `r` is what a move of `code` in direction `d` must return: at the
      border of the domain an error, and otherwise the valid cell displaced
      by exactly one cell size in direction `d`. */
  predicate Moved(b: Bounds, k: Level, code: string, d: Dir, r: Option<string>)
    requires ValidMesh(b, k, code)
  {
    && (r.Some? ==>
          && ValidMesh(b, k, r.value)
          && South(b, k, r.value) == South(b, k, code) + DLat(k, d)
          && West(b, k, r.value) == West(b, k, code) + DLon(k, d))
    && (r.None? <==> Edge(b, k, code, d))
  }

  // ---------------------------------------------------------------------
  // Codes and their parents.

  /** South-north offset of quadrant `q` inside its parent: the northern
      quadrants 3 and 4 are one cell height up. */
  function QuadLat(k: Level, q: nat): int { if q >= 3 then Height(k) else 0 }

  /** West-east offset of quadrant `q` inside its parent: the eastern
      quadrants 2 and 4 are one cell width to the right. */
  function QuadLon(k: Level, q: nat): int { if q == 2 || q == 4 then Width(k) else 0 }

  /** Appending a row and a column digit to a valid parent code gives a valid
      decimal-level code whose anchor is offset by row and column. */
  lemma DecimalChild(b: Bounds, k: Level, p: string, row: char, col: char)
    requires IsDecimalLevel(k) && ValidMesh(b, k - 1, p)
    requires '0' <= row <= MaxChar(k) && '0' <= col <= MaxChar(k)
    ensures ValidMesh(b, k, p + [row, col])
    ensures South(b, k, p + [row, col]) == South(b, k - 1, p) + RowOffset(k, Digit(row))
    ensures West(b, k, p + [row, col]) == West(b, k - 1, p) + ColOffset(k, Digit(col))
  {
    ValidLength(b, k - 1, p);
    PrefixAgree(b, k - 1, p, p + [row, col]);
  }

  /** Appending a quadrant digit to a valid parent code gives a valid code one
      level down whose anchor is offset by the quadrant's half cell. */
  lemma QuadrantChild(b: Bounds, k: Level, p: string, q: nat)
    requires 4 <= k && ValidMesh(b, k - 1, p) && 1 <= q <= 4
    ensures ValidMesh(b, k, p + [DigitChar(q)])
    ensures South(b, k, p + [DigitChar(q)]) == South(b, k - 1, p) + QuadLat(k, q)
    ensures West(b, k, p + [DigitChar(q)]) == West(b, k - 1, p) + QuadLon(k, q)
  {
    ValidLength(b, k - 1, p);
    PrefixAgree(b, k - 1, p, p + [DigitChar(q)]);
  }

  /** A decimal-level code is its parent followed by its row and column
      digit, and lies in the parent at the offset of that row and column. */
  lemma DecimalInParent(b: Bounds, k: Level, code: string)
    requires IsDecimalLevel(k) && ValidMesh(b, k, code)
    ensures var i := Len(k - 1);
      && |code| == i + 2 && IsDigit(code[i]) && IsDigit(code[i + 1])
      && code[i] <= MaxChar(k) && code[i + 1] <= MaxChar(k)
      && code == Parent(b, k, code) + [code[i], code[i + 1]]
      && South(b, k, code) == South(b, k - 1, Parent(b, k, code)) + RowOffset(k, Digit(code[i]))
      && West(b, k, code) == West(b, k - 1, Parent(b, k, code)) + ColOffset(k, Digit(code[i + 1]))
  {
    var i := Len(k - 1);
    var up := Parent(b, k, code);
    assert code == up + [code[i], code[i + 1]];
    DecimalChild(b, k, up, code[i], code[i + 1]);
  }

  /** A quadrant-level code is its parent followed by its quadrant digit,
      and lies in the parent at the offset of that quadrant; the parent is
      twice as large in both directions. */
  lemma QuadrantInParent(b: Bounds, k: Level, code: string)
    requires 4 <= k && ValidMesh(b, k, code)
    ensures code == Parent(b, k, code) + [DigitChar(Quadrant(b, k, code))]
    ensures South(b, k, code) == South(b, k - 1, Parent(b, k, code)) + QuadLat(k, Quadrant(b, k, code))
    ensures West(b, k, code) == West(b, k - 1, Parent(b, k, code)) + QuadLon(k, Quadrant(b, k, code))
    ensures Height(k - 1) == 2 * Height(k) && Width(k - 1) == 2 * Width(k)
  {
    var i := Len(k - 1);
    var up := Parent(b, k, code);
    DigitCharOfDigit(code[i]);
    assert code == up + [code[i]];
    QuadrantChild(b, k, up, Quadrant(b, k, code));
    HalfSize(k);
  }

  /** Rebuilding a cell from its parent's moved cell:
      `Self::new(&format!("{}{}", parent.code, suffix))`, short-circuiting
      on the parent's error. */
  function Reattach(b: Bounds, k: Level, p: Option<string>, suffix: string): (r: Option<string>)
    ensures r.Some? <==> p.Some? && ValidMesh(b, k, p.value + suffix)
    ensures r.Some? ==> r.value == p.value + suffix
  {
    var q :- p;
    New(b, k, q + suffix)
  }

  /** A valid cell displaced by exactly one step is a successful move. */
  lemma SomeMoved(b: Bounds, k: Level, code: string, d: Dir, c: string)
    requires ValidMesh(b, k, code) && ValidMesh(b, k, c)
    requires South(b, k, c) == South(b, k, code) + DLat(k, d)
    requires West(b, k, c) == West(b, k, code) + DLon(k, d)
    ensures Moved(b, k, code, d, Some(c))
  {
    InDomain(b, k, c);
  }

  /** A move that carries into the parent fails exactly when the parent's
      move fails, provided the code lies on the parent's side `d`. */
  lemma CarryMoved(b: Bounds, k: Level, code: string, d: Dir, s: Option<string>, suffix: string)
    requires 2 <= k && ValidMesh(b, k, code)
    requires Moved(b, k - 1, Parent(b, k, code), d, s)
    requires Edge(b, k, code, d) <==> Edge(b, k - 1, Parent(b, k, code), d)
    requires s.Some? ==> ValidMesh(b, k, s.value + suffix)
    requires s.Some? ==> South(b, k, s.value + suffix) == South(b, k, code) + DLat(k, d)
    requires s.Some? ==> West(b, k, s.value + suffix) == West(b, k, code) + DLon(k, d)
    ensures Moved(b, k, code, d, Reattach(b, k, s, suffix))
  {
  }

  // ---------------------------------------------------------------------
  // The moves.

  /** The move of a level-k cell one step in direction `d`. */
  function Step(b: Bounds, k: Level, code: string, d: Dir): (r: Option<string>)
    requires b.Valid() && ValidMesh(b, k, code)
    ensures r.Some? ==> ValidMesh(b, k, r.value)
  {
    match d
    case N => NorthMesh(b, k, code)
    case E => EastMesh(b, k, code)
    case S => SouthMesh(b, k, code)
    case W => WestMesh(b, k, code)
  }

  /** Every move fails exactly at the border of the domain and otherwise
      lands on the valid cell displaced by one cell size. */
  lemma StepMoves(b: Bounds, k: Level, code: string, d: Dir)
    requires b.Valid() && ValidMesh(b, k, code)
    ensures Moved(b, k, code, d, Step(b, k, code, d))
  {
    match d
    case N => NorthMoves(b, k, code);
    case E => EastMoves(b, k, code);
    case S => SouthMoves(b, k, code);
    case W => WestMoves(b, k, code);
  }

  /** `north_mesh` at any level. */
  function NorthMesh(b: Bounds, k: Level, code: string): (r: Option<string>)
    requires b.Valid() && ValidMesh(b, k, code)
    decreases k, 1
  {
    if k < 2 then Step1(b, code, N)
    else if IsDecimalLevel(k) then DecimalNorth(b, k, code)
    else QuadrantNorth(b, k, code)
  }

  lemma {:induction false} NorthMoves(b: Bounds, k: Level, code: string)
    requires b.Valid() && ValidMesh(b, k, code)
    ensures Moved(b, k, code, N, NorthMesh(b, k, code))
    decreases k, 1
  {
    if k < 2 {
    } else if IsDecimalLevel(k) {
      DecimalNorthMoves(b, k, code);
    } else {
      QuadrantNorthMoves(b, k, code);
    }
  }

  /** `east_mesh` at any level. */
  function EastMesh(b: Bounds, k: Level, code: string): (r: Option<string>)
    requires b.Valid() && ValidMesh(b, k, code)
    decreases k, 1
  {
    if k < 2 then Step1(b, code, E)
    else if IsDecimalLevel(k) then DecimalEast(b, k, code)
    else QuadrantEast(b, k, code)
  }

  lemma {:induction false} EastMoves(b: Bounds, k: Level, code: string)
    requires b.Valid() && ValidMesh(b, k, code)
    ensures Moved(b, k, code, E, EastMesh(b, k, code))
    decreases k, 1
  {
    if k < 2 {
    } else if IsDecimalLevel(k) {
      DecimalEastMoves(b, k, code);
    } else {
      QuadrantEastMoves(b, k, code);
    }
  }

  /** `south_mesh` at any level. */
  function SouthMesh(b: Bounds, k: Level, code: string): (r: Option<string>)
    requires b.Valid() && ValidMesh(b, k, code)
    decreases k, 1
  {
    if k < 2 then Step1(b, code, S)
    else if IsDecimalLevel(k) then DecimalSouth(b, k, code)
    else QuadrantSouth(b, k, code)
  }

  lemma {:induction false} SouthMoves(b: Bounds, k: Level, code: string)
    requires b.Valid() && ValidMesh(b, k, code)
    ensures Moved(b, k, code, S, SouthMesh(b, k, code))
    decreases k, 1
  {
    if k < 2 {
    } else if IsDecimalLevel(k) {
      DecimalSouthMoves(b, k, code);
    } else {
      QuadrantSouthMoves(b, k, code);
    }
  }

  /** `west_mesh` at any level. */
  function WestMesh(b: Bounds, k: Level, code: string): (r: Option<string>)
    requires b.Valid() && ValidMesh(b, k, code)
    decreases k, 1
  {
    if k < 2 then Step1(b, code, W)
    else if IsDecimalLevel(k) then DecimalWest(b, k, code)
    else QuadrantWest(b, k, code)
  }

  lemma {:induction false} WestMoves(b: Bounds, k: Level, code: string)
    requires b.Valid() && ValidMesh(b, k, code)
    ensures Moved(b, k, code, W, WestMesh(b, k, code))
    decreases k, 1
  {
    if k < 2 {
    } else if IsDecimalLevel(k) {
      DecimalWestMoves(b, k, code);
    } else {
      QuadrantWestMoves(b, k, code);
    }
  }

  // ---------------------------------------------------------------------
  // Levels 2 and 3: a row digit and a column digit.

  /** `north_mesh` of `Mesh2` and `Mesh3`: the row digit goes up by one; from
      the top row (7 at level 2, 9 at level 3) the parent moves north and the
      row wraps to 0. */
  function DecimalNorth(b: Bounds, k: Level, code: string): (r: Option<string>)
    requires b.Valid() && IsDecimalLevel(k) && ValidMesh(b, k, code)
    decreases k, 0
  {
    var i := Len(k - 1);
    var row := Digit(code[i]);
    if row == Digit(MaxChar(k)) then
      Reattach(b, k, NorthMesh(b, k - 1, Parent(b, k, code)), ['0', code[i + 1]])
    else
      New(b, k, code[..i] + [DigitChar(row + 1), code[i + 1]])
  }

  lemma {:induction false} DecimalNorthMoves(b: Bounds, k: Level, code: string)
    requires b.Valid() && IsDecimalLevel(k) && ValidMesh(b, k, code)
    ensures Moved(b, k, code, N, DecimalNorth(b, k, code))
    decreases k, 0
  {
    if Digit(code[Len(k - 1)]) == Digit(MaxChar(k)) {
      var up := Parent(b, k, code);
      NorthMoves(b, k - 1, up);
      DecimalNorthCarry(b, k, code, NorthMesh(b, k - 1, up));
      DecimalNorthUnfold(b, k, code);
    } else {
      DecimalNorthStay(b, k, code);
      DecimalNorthUnfold(b, k, code);
    }
  }

  /** The two branches of `DecimalNorth`. */
  lemma DecimalNorthUnfold(b: Bounds, k: Level, code: string)
    requires b.Valid() && IsDecimalLevel(k) && ValidMesh(b, k, code)
    ensures Digit(code[Len(k - 1)]) == Digit(MaxChar(k)) ==>
      DecimalNorth(b, k, code) == Reattach(b, k, NorthMesh(b, k - 1, Parent(b, k, code)), ['0', code[Len(k - 1) + 1]])
    ensures !(Digit(code[Len(k - 1)]) == Digit(MaxChar(k))) ==>
      DecimalNorth(b, k, code) == New(b, k, code[..Len(k - 1)] + [DigitChar(Digit(code[Len(k - 1)]) + 1), code[Len(k - 1) + 1]])
  {
  }

  lemma DecimalNorthStay(b: Bounds, k: Level, code: string)
    requires b.Valid() && IsDecimalLevel(k) && ValidMesh(b, k, code)
    requires !(Digit(code[Len(k - 1)]) == Digit(MaxChar(k)))
    ensures Moved(b, k, code, N, New(b, k, code[..Len(k - 1)] + [DigitChar(Digit(code[Len(k - 1)]) + 1), code[Len(k - 1) + 1]]))
  {
    var i := Len(k - 1);
    var row := Digit(code[i]);
    var c := code[..i] + [DigitChar(row + 1), code[i + 1]];
    DecimalOffset(k, row);
    Sibling(b, k, code, c);
    SomeMoved(b, k, code, N, c);
  }

  lemma DecimalNorthCarry(b: Bounds, k: Level, code: string, s: Option<string>)
    requires b.Valid() && IsDecimalLevel(k) && ValidMesh(b, k, code)
    requires Digit(code[Len(k - 1)]) == Digit(MaxChar(k))
    requires Moved(b, k - 1, Parent(b, k, code), N, s)
    ensures Moved(b, k, code, N, Reattach(b, k, s, ['0', code[Len(k - 1) + 1]]))
  {
    var i := Len(k - 1);
    DecimalInParent(b, k, code);
    DecimalOffset(k, Digit(code[i]));
    if s.Some? {
      DecimalChild(b, k, s.value, '0', code[i + 1]);
    }
    CarryMoved(b, k, code, N, s, ['0', code[i + 1]]);
  }

  /** `east_mesh` of `Mesh2` and `Mesh3`: the column digit goes up by one;
      from the last column the parent moves east and the column wraps to 0. */
  function DecimalEast(b: Bounds, k: Level, code: string): (r: Option<string>)
    requires b.Valid() && IsDecimalLevel(k) && ValidMesh(b, k, code)
    decreases k, 0
  {
    var i := Len(k - 1);
    var col := Digit(code[i + 1]);
    if col == Digit(MaxChar(k)) then
      Reattach(b, k, EastMesh(b, k - 1, Parent(b, k, code)), [code[i], '0'])
    else
      New(b, k, code[..i + 1] + [DigitChar(col + 1)])
  }

  lemma {:induction false} DecimalEastMoves(b: Bounds, k: Level, code: string)
    requires b.Valid() && IsDecimalLevel(k) && ValidMesh(b, k, code)
    ensures Moved(b, k, code, E, DecimalEast(b, k, code))
    decreases k, 0
  {
    if Digit(code[Len(k - 1) + 1]) == Digit(MaxChar(k)) {
      var up := Parent(b, k, code);
      EastMoves(b, k - 1, up);
      DecimalEastCarry(b, k, code, EastMesh(b, k - 1, up));
      DecimalEastUnfold(b, k, code);
    } else {
      DecimalEastStay(b, k, code);
      DecimalEastUnfold(b, k, code);
    }
  }

  /** The two branches of `DecimalEast`. */
  lemma DecimalEastUnfold(b: Bounds, k: Level, code: string)
    requires b.Valid() && IsDecimalLevel(k) && ValidMesh(b, k, code)
    ensures Digit(code[Len(k - 1) + 1]) == Digit(MaxChar(k)) ==>
      DecimalEast(b, k, code) == Reattach(b, k, EastMesh(b, k - 1, Parent(b, k, code)), [code[Len(k - 1)], '0'])
    ensures !(Digit(code[Len(k - 1) + 1]) == Digit(MaxChar(k))) ==>
      DecimalEast(b, k, code) == New(b, k, code[..Len(k - 1) + 1] + [DigitChar(Digit(code[Len(k - 1) + 1]) + 1)])
  {
  }

  lemma DecimalEastStay(b: Bounds, k: Level, code: string)
    requires b.Valid() && IsDecimalLevel(k) && ValidMesh(b, k, code)
    requires !(Digit(code[Len(k - 1) + 1]) == Digit(MaxChar(k)))
    ensures Moved(b, k, code, E, New(b, k, code[..Len(k - 1) + 1] + [DigitChar(Digit(code[Len(k - 1) + 1]) + 1)]))
  {
    var i := Len(k - 1);
    var col := Digit(code[i + 1]);
    var c := code[..i + 1] + [DigitChar(col + 1)];
    DecimalOffset(k, col);
    Sibling(b, k, code, c);
    SomeMoved(b, k, code, E, c);
  }

  lemma DecimalEastCarry(b: Bounds, k: Level, code: string, s: Option<string>)
    requires b.Valid() && IsDecimalLevel(k) && ValidMesh(b, k, code)
    requires Digit(code[Len(k - 1) + 1]) == Digit(MaxChar(k))
    requires Moved(b, k - 1, Parent(b, k, code), E, s)
    ensures Moved(b, k, code, E, Reattach(b, k, s, [code[Len(k - 1)], '0']))
  {
    var i := Len(k - 1);
    DecimalInParent(b, k, code);
    DecimalOffset(k, Digit(code[i + 1]));
    if s.Some? {
      DecimalChild(b, k, s.value, code[i], '0');
    }
    CarryMoved(b, k, code, E, s, [code[i], '0']);
  }

  /** `south_mesh` of `Mesh2` and `Mesh3`: the row digit goes down by one;
      from row 0 the parent moves south and the row wraps to the top row. */
  function DecimalSouth(b: Bounds, k: Level, code: string): (r: Option<string>)
    requires b.Valid() && IsDecimalLevel(k) && ValidMesh(b, k, code)
    decreases k, 0
  {
    var i := Len(k - 1);
    var row := Digit(code[i]);
    if row == 0 then
      Reattach(b, k, SouthMesh(b, k - 1, Parent(b, k, code)), [MaxChar(k), code[i + 1]])
    else
      New(b, k, code[..i] + [DigitChar(row - 1), code[i + 1]])
  }

  lemma {:induction false} DecimalSouthMoves(b: Bounds, k: Level, code: string)
    requires b.Valid() && IsDecimalLevel(k) && ValidMesh(b, k, code)
    ensures Moved(b, k, code, S, DecimalSouth(b, k, code))
    decreases k, 0
  {
    if Digit(code[Len(k - 1)]) == 0 {
      var up := Parent(b, k, code);
      SouthMoves(b, k - 1, up);
      DecimalSouthCarry(b, k, code, SouthMesh(b, k - 1, up));
      DecimalSouthUnfold(b, k, code);
    } else {
      DecimalSouthStay(b, k, code);
      DecimalSouthUnfold(b, k, code);
    }
  }

  /** The two branches of `DecimalSouth`. */
  lemma DecimalSouthUnfold(b: Bounds, k: Level, code: string)
    requires b.Valid() && IsDecimalLevel(k) && ValidMesh(b, k, code)
    ensures Digit(code[Len(k - 1)]) == 0 ==>
      DecimalSouth(b, k, code) == Reattach(b, k, SouthMesh(b, k - 1, Parent(b, k, code)), [MaxChar(k), code[Len(k - 1) + 1]])
    ensures !(Digit(code[Len(k - 1)]) == 0) ==>
      DecimalSouth(b, k, code) == New(b, k, code[..Len(k - 1)] + [DigitChar(Digit(code[Len(k - 1)]) - 1), code[Len(k - 1) + 1]])
  {
  }

  lemma DecimalSouthStay(b: Bounds, k: Level, code: string)
    requires b.Valid() && IsDecimalLevel(k) && ValidMesh(b, k, code)
    requires !(Digit(code[Len(k - 1)]) == 0)
    ensures Moved(b, k, code, S, New(b, k, code[..Len(k - 1)] + [DigitChar(Digit(code[Len(k - 1)]) - 1), code[Len(k - 1) + 1]]))
  {
    var i := Len(k - 1);
    var row := Digit(code[i]);
    var c := code[..i] + [DigitChar(row - 1), code[i + 1]];
    DecimalOffset(k, row - 1);
    Sibling(b, k, code, c);
    SomeMoved(b, k, code, S, c);
  }

  lemma DecimalSouthCarry(b: Bounds, k: Level, code: string, s: Option<string>)
    requires b.Valid() && IsDecimalLevel(k) && ValidMesh(b, k, code)
    requires Digit(code[Len(k - 1)]) == 0
    requires Moved(b, k - 1, Parent(b, k, code), S, s)
    ensures Moved(b, k, code, S, Reattach(b, k, s, [MaxChar(k), code[Len(k - 1) + 1]]))
  {
    var i := Len(k - 1);
    DecimalInParent(b, k, code);
    DecimalOffset(k, Digit(code[i]));
    if s.Some? {
      DecimalChild(b, k, s.value, MaxChar(k), code[i + 1]);
    }
    CarryMoved(b, k, code, S, s, [MaxChar(k), code[i + 1]]);
  }

  /** `west_mesh` of `Mesh2` and `Mesh3`: the column digit goes down by one;
      from column 0 the parent moves west and the column wraps to the last
      column. */
  function DecimalWest(b: Bounds, k: Level, code: string): (r: Option<string>)
    requires b.Valid() && IsDecimalLevel(k) && ValidMesh(b, k, code)
    decreases k, 0
  {
    var i := Len(k - 1);
    var col := Digit(code[i + 1]);
    if col == 0 then
      Reattach(b, k, WestMesh(b, k - 1, Parent(b, k, code)), [code[i], MaxChar(k)])
    else
      New(b, k, code[..i + 1] + [DigitChar(col - 1)])
  }

  lemma {:induction false} DecimalWestMoves(b: Bounds, k: Level, code: string)
    requires b.Valid() && IsDecimalLevel(k) && ValidMesh(b, k, code)
    ensures Moved(b, k, code, W, DecimalWest(b, k, code))
    decreases k, 0
  {
    if Digit(code[Len(k - 1) + 1]) == 0 {
      var up := Parent(b, k, code);
      WestMoves(b, k - 1, up);
      DecimalWestCarry(b, k, code, WestMesh(b, k - 1, up));
      DecimalWestUnfold(b, k, code);
    } else {
      DecimalWestStay(b, k, code);
      DecimalWestUnfold(b, k, code);
    }
  }

  /** The two branches of `DecimalWest`. */
  lemma DecimalWestUnfold(b: Bounds, k: Level, code: string)
    requires b.Valid() && IsDecimalLevel(k) && ValidMesh(b, k, code)
    ensures Digit(code[Len(k - 1) + 1]) == 0 ==>
      DecimalWest(b, k, code) == Reattach(b, k, WestMesh(b, k - 1, Parent(b, k, code)), [code[Len(k - 1)], MaxChar(k)])
    ensures !(Digit(code[Len(k - 1) + 1]) == 0) ==>
      DecimalWest(b, k, code) == New(b, k, code[..Len(k - 1) + 1] + [DigitChar(Digit(code[Len(k - 1) + 1]) - 1)])
  {
  }

  lemma DecimalWestStay(b: Bounds, k: Level, code: string)
    requires b.Valid() && IsDecimalLevel(k) && ValidMesh(b, k, code)
    requires !(Digit(code[Len(k - 1) + 1]) == 0)
    ensures Moved(b, k, code, W, New(b, k, code[..Len(k - 1) + 1] + [DigitChar(Digit(code[Len(k - 1) + 1]) - 1)]))
  {
    var i := Len(k - 1);
    var col := Digit(code[i + 1]);
    var c := code[..i + 1] + [DigitChar(col - 1)];
    DecimalOffset(k, col - 1);
    Sibling(b, k, code, c);
    SomeMoved(b, k, code, W, c);
  }

  lemma DecimalWestCarry(b: Bounds, k: Level, code: string, s: Option<string>)
    requires b.Valid() && IsDecimalLevel(k) && ValidMesh(b, k, code)
    requires Digit(code[Len(k - 1) + 1]) == 0
    requires Moved(b, k - 1, Parent(b, k, code), W, s)
    ensures Moved(b, k, code, W, Reattach(b, k, s, [code[Len(k - 1)], MaxChar(k)]))
  {
    var i := Len(k - 1);
    DecimalInParent(b, k, code);
    DecimalOffset(k, Digit(code[i + 1]));
    if s.Some? {
      DecimalChild(b, k, s.value, code[i], MaxChar(k));
    }
    CarryMoved(b, k, code, W, s, [code[i], MaxChar(k)]);
  }

  // ---------------------------------------------------------------------
  // Levels 4 to 6: one quadrant digit (1 = SW, 2 = SE, 3 = NW, 4 = NE).

  /** `north_mesh` of `Mesh4`, `Mesh5` and `Mesh6`: a southern quadrant
      becomes the northern one above it; from a northern quadrant the parent
      moves north and the digit becomes the southern quadrant below. */
  function QuadrantNorth(b: Bounds, k: Level, code: string): (r: Option<string>)
    requires b.Valid() && 4 <= k && ValidMesh(b, k, code)
    decreases k, 0
  {
    var n := Quadrant(b, k, code);
    if n == 3 || n == 4 then
      Reattach(b, k, NorthMesh(b, k - 1, Parent(b, k, code)), [DigitChar(n - 2)])
    else
      New(b, k, code[..Len(k - 1)] + [DigitChar(n + 2)])
  }

  lemma {:induction false} QuadrantNorthMoves(b: Bounds, k: Level, code: string)
    requires b.Valid() && 4 <= k && ValidMesh(b, k, code)
    ensures Moved(b, k, code, N, QuadrantNorth(b, k, code))
    decreases k, 0
  {
    if Quadrant(b, k, code) == 3 || Quadrant(b, k, code) == 4 {
      var up := Parent(b, k, code);
      NorthMoves(b, k - 1, up);
      QuadrantNorthCarry(b, k, code, NorthMesh(b, k - 1, up));
      QuadrantNorthUnfold(b, k, code);
    } else {
      QuadrantNorthStay(b, k, code);
      QuadrantNorthUnfold(b, k, code);
    }
  }

  /** The two branches of `QuadrantNorth`. */
  lemma QuadrantNorthUnfold(b: Bounds, k: Level, code: string)
    requires b.Valid() && 4 <= k && ValidMesh(b, k, code)
    ensures Quadrant(b, k, code) == 3 || Quadrant(b, k, code) == 4 ==>
      QuadrantNorth(b, k, code) == Reattach(b, k, NorthMesh(b, k - 1, Parent(b, k, code)), [DigitChar(Quadrant(b, k, code) - 2)])
    ensures !(Quadrant(b, k, code) == 3 || Quadrant(b, k, code) == 4) ==>
      QuadrantNorth(b, k, code) == New(b, k, code[..Len(k - 1)] + [DigitChar(Quadrant(b, k, code) + 2)])
  {
  }

  lemma QuadrantNorthStay(b: Bounds, k: Level, code: string)
    requires b.Valid() && 4 <= k && ValidMesh(b, k, code)
    requires !(Quadrant(b, k, code) == 3 || Quadrant(b, k, code) == 4)
    ensures Moved(b, k, code, N, New(b, k, code[..Len(k - 1)] + [DigitChar(Quadrant(b, k, code) + 2)]))
  {
    var n := Quadrant(b, k, code);
    var c := code[..Len(k - 1)] + [DigitChar(n + 2)];
    Sibling(b, k, code, c);
    SomeMoved(b, k, code, N, c);
  }

  lemma QuadrantNorthCarry(b: Bounds, k: Level, code: string, s: Option<string>)
    requires b.Valid() && 4 <= k && ValidMesh(b, k, code)
    requires Quadrant(b, k, code) == 3 || Quadrant(b, k, code) == 4
    requires Moved(b, k - 1, Parent(b, k, code), N, s)
    ensures Moved(b, k, code, N, Reattach(b, k, s, [DigitChar(Quadrant(b, k, code) - 2)]))
  {
    var n := Quadrant(b, k, code);
    QuadrantInParent(b, k, code);
    if s.Some? {
      QuadrantChild(b, k, s.value, n - 2);
    }
    CarryMoved(b, k, code, N, s, [DigitChar(n - 2)]);
  }

  /** `east_mesh` of the quadrant levels: a western quadrant becomes the
      eastern one beside it; from an eastern quadrant the parent moves east
      and the digit becomes the western quadrant. */
  function QuadrantEast(b: Bounds, k: Level, code: string): (r: Option<string>)
    requires b.Valid() && 4 <= k && ValidMesh(b, k, code)
    decreases k, 0
  {
    var n := Quadrant(b, k, code);
    if n == 2 || n == 4 then
      Reattach(b, k, EastMesh(b, k - 1, Parent(b, k, code)), [DigitChar(n - 1)])
    else
      New(b, k, code[..Len(k - 1)] + [DigitChar(n + 1)])
  }

  lemma {:induction false} QuadrantEastMoves(b: Bounds, k: Level, code: string)
    requires b.Valid() && 4 <= k && ValidMesh(b, k, code)
    ensures Moved(b, k, code, E, QuadrantEast(b, k, code))
    decreases k, 0
  {
    if Quadrant(b, k, code) == 2 || Quadrant(b, k, code) == 4 {
      var up := Parent(b, k, code);
      EastMoves(b, k - 1, up);
      QuadrantEastCarry(b, k, code, EastMesh(b, k - 1, up));
      QuadrantEastUnfold(b, k, code);
    } else {
      QuadrantEastStay(b, k, code);
      QuadrantEastUnfold(b, k, code);
    }
  }

  /** The two branches of `QuadrantEast`. */
  lemma QuadrantEastUnfold(b: Bounds, k: Level, code: string)
    requires b.Valid() && 4 <= k && ValidMesh(b, k, code)
    ensures Quadrant(b, k, code) == 2 || Quadrant(b, k, code) == 4 ==>
      QuadrantEast(b, k, code) == Reattach(b, k, EastMesh(b, k - 1, Parent(b, k, code)), [DigitChar(Quadrant(b, k, code) - 1)])
    ensures !(Quadrant(b, k, code) == 2 || Quadrant(b, k, code) == 4) ==>
      QuadrantEast(b, k, code) == New(b, k, code[..Len(k - 1)] + [DigitChar(Quadrant(b, k, code) + 1)])
  {
  }

  lemma QuadrantEastStay(b: Bounds, k: Level, code: string)
    requires b.Valid() && 4 <= k && ValidMesh(b, k, code)
    requires !(Quadrant(b, k, code) == 2 || Quadrant(b, k, code) == 4)
    ensures Moved(b, k, code, E, New(b, k, code[..Len(k - 1)] + [DigitChar(Quadrant(b, k, code) + 1)]))
  {
    var n := Quadrant(b, k, code);
    var c := code[..Len(k - 1)] + [DigitChar(n + 1)];
    Sibling(b, k, code, c);
    SomeMoved(b, k, code, E, c);
  }

  lemma QuadrantEastCarry(b: Bounds, k: Level, code: string, s: Option<string>)
    requires b.Valid() && 4 <= k && ValidMesh(b, k, code)
    requires Quadrant(b, k, code) == 2 || Quadrant(b, k, code) == 4
    requires Moved(b, k - 1, Parent(b, k, code), E, s)
    ensures Moved(b, k, code, E, Reattach(b, k, s, [DigitChar(Quadrant(b, k, code) - 1)]))
  {
    var n := Quadrant(b, k, code);
    QuadrantInParent(b, k, code);
    if s.Some? {
      QuadrantChild(b, k, s.value, n - 1);
    }
    CarryMoved(b, k, code, E, s, [DigitChar(n - 1)]);
  }

  /** `south_mesh` of the quadrant levels: a northern quadrant becomes the
      southern one below it; from a southern quadrant the parent moves south
      and the digit becomes the northern quadrant. */
  function QuadrantSouth(b: Bounds, k: Level, code: string): (r: Option<string>)
    requires b.Valid() && 4 <= k && ValidMesh(b, k, code)
    decreases k, 0
  {
    var n := Quadrant(b, k, code);
    if n == 1 || n == 2 then
      Reattach(b, k, SouthMesh(b, k - 1, Parent(b, k, code)), [DigitChar(n + 2)])
    else
      New(b, k, code[..Len(k - 1)] + [DigitChar(n - 2)])
  }

  lemma {:induction false} QuadrantSouthMoves(b: Bounds, k: Level, code: string)
    requires b.Valid() && 4 <= k && ValidMesh(b, k, code)
    ensures Moved(b, k, code, S, QuadrantSouth(b, k, code))
    decreases k, 0
  {
    if Quadrant(b, k, code) == 1 || Quadrant(b, k, code) == 2 {
      var up := Parent(b, k, code);
      SouthMoves(b, k - 1, up);
      QuadrantSouthCarry(b, k, code, SouthMesh(b, k - 1, up));
      QuadrantSouthUnfold(b, k, code);
    } else {
      QuadrantSouthStay(b, k, code);
      QuadrantSouthUnfold(b, k, code);
    }
  }

  /** The two branches of `QuadrantSouth`. */
  lemma QuadrantSouthUnfold(b: Bounds, k: Level, code: string)
    requires b.Valid() && 4 <= k && ValidMesh(b, k, code)
    ensures Quadrant(b, k, code) == 1 || Quadrant(b, k, code) == 2 ==>
      QuadrantSouth(b, k, code) == Reattach(b, k, SouthMesh(b, k - 1, Parent(b, k, code)), [DigitChar(Quadrant(b, k, code) + 2)])
    ensures !(Quadrant(b, k, code) == 1 || Quadrant(b, k, code) == 2) ==>
      QuadrantSouth(b, k, code) == New(b, k, code[..Len(k - 1)] + [DigitChar(Quadrant(b, k, code) - 2)])
  {
  }

  lemma QuadrantSouthStay(b: Bounds, k: Level, code: string)
    requires b.Valid() && 4 <= k && ValidMesh(b, k, code)
    requires !(Quadrant(b, k, code) == 1 || Quadrant(b, k, code) == 2)
    ensures Moved(b, k, code, S, New(b, k, code[..Len(k - 1)] + [DigitChar(Quadrant(b, k, code) - 2)]))
  {
    var n := Quadrant(b, k, code);
    var c := code[..Len(k - 1)] + [DigitChar(n - 2)];
    Sibling(b, k, code, c);
    SomeMoved(b, k, code, S, c);
  }

  lemma QuadrantSouthCarry(b: Bounds, k: Level, code: string, s: Option<string>)
    requires b.Valid() && 4 <= k && ValidMesh(b, k, code)
    requires Quadrant(b, k, code) == 1 || Quadrant(b, k, code) == 2
    requires Moved(b, k - 1, Parent(b, k, code), S, s)
    ensures Moved(b, k, code, S, Reattach(b, k, s, [DigitChar(Quadrant(b, k, code) + 2)]))
  {
    var n := Quadrant(b, k, code);
    QuadrantInParent(b, k, code);
    if s.Some? {
      QuadrantChild(b, k, s.value, n + 2);
    }
    CarryMoved(b, k, code, S, s, [DigitChar(n + 2)]);
  }

  /** `west_mesh` of the quadrant levels: an eastern quadrant becomes the
      western one beside it; from a western quadrant the parent moves west
      and the digit becomes the eastern quadrant. */
  function QuadrantWest(b: Bounds, k: Level, code: string): (r: Option<string>)
    requires b.Valid() && 4 <= k && ValidMesh(b, k, code)
    decreases k, 0
  {
    var n := Quadrant(b, k, code);
    if n == 1 || n == 3 then
      Reattach(b, k, WestMesh(b, k - 1, Parent(b, k, code)), [DigitChar(n + 1)])
    else
      New(b, k, code[..Len(k - 1)] + [DigitChar(n - 1)])
  }

  lemma {:induction false} QuadrantWestMoves(b: Bounds, k: Level, code: string)
    requires b.Valid() && 4 <= k && ValidMesh(b, k, code)
    ensures Moved(b, k, code, W, QuadrantWest(b, k, code))
    decreases k, 0
  {
    if Quadrant(b, k, code) == 1 || Quadrant(b, k, code) == 3 {
      var up := Parent(b, k, code);
      WestMoves(b, k - 1, up);
      QuadrantWestCarry(b, k, code, WestMesh(b, k - 1, up));
      QuadrantWestUnfold(b, k, code);
    } else {
      QuadrantWestStay(b, k, code);
      QuadrantWestUnfold(b, k, code);
    }
  }

  /** The two branches of `QuadrantWest`. */
  lemma QuadrantWestUnfold(b: Bounds, k: Level, code: string)
    requires b.Valid() && 4 <= k && ValidMesh(b, k, code)
    ensures Quadrant(b, k, code) == 1 || Quadrant(b, k, code) == 3 ==>
      QuadrantWest(b, k, code) == Reattach(b, k, WestMesh(b, k - 1, Parent(b, k, code)), [DigitChar(Quadrant(b, k, code) + 1)])
    ensures !(Quadrant(b, k, code) == 1 || Quadrant(b, k, code) == 3) ==>
      QuadrantWest(b, k, code) == New(b, k, code[..Len(k - 1)] + [DigitChar(Quadrant(b, k, code) - 1)])
  {
  }

  lemma QuadrantWestStay(b: Bounds, k: Level, code: string)
    requires b.Valid() && 4 <= k && ValidMesh(b, k, code)
    requires !(Quadrant(b, k, code) == 1 || Quadrant(b, k, code) == 3)
    ensures Moved(b, k, code, W, New(b, k, code[..Len(k - 1)] + [DigitChar(Quadrant(b, k, code) - 1)]))
  {
    var n := Quadrant(b, k, code);
    var c := code[..Len(k - 1)] + [DigitChar(n - 1)];
    Sibling(b, k, code, c);
    SomeMoved(b, k, code, W, c);
  }

  lemma QuadrantWestCarry(b: Bounds, k: Level, code: string, s: Option<string>)
    requires b.Valid() && 4 <= k && ValidMesh(b, k, code)
    requires Quadrant(b, k, code) == 1 || Quadrant(b, k, code) == 3
    requires Moved(b, k - 1, Parent(b, k, code), W, s)
    ensures Moved(b, k, code, W, Reattach(b, k, s, [DigitChar(Quadrant(b, k, code) + 1)]))
  {
    var n := Quadrant(b, k, code);
    QuadrantInParent(b, k, code);
    if s.Some? {
      QuadrantChild(b, k, s.value, n + 1);
    }
    CarryMoved(b, k, code, W, s, [DigitChar(n + 1)]);
  }
}
