/** Cells as positions on a grid: the row and column of a level-k cell,
    counted in level-k cells from the south-west corner of the national
    domain.  A valid code is determined by its anchor, so moving one cell and
    back returns the original code. */
module MeshGrid {
  import opened MeshBasics
  import opened Mesh1
  import opened MeshCode
  import opened MeshStep

  /** `m` level-k cell heights (linear on each level). */
  function Rows(k: Level, m: int): int {
    if k < 2 then 19200 * m
    else if k < 3 then 2400 * m
    else if k < 4 then 240 * m
    else if k < 5 then 120 * m
    else if k < 6 then 60 * m
    else 30 * m
  }

  /** `m` level-k cell widths. */
  function Cols(k: Level, m: int): int {
    if k < 2 then 28800 * m
    else if k < 3 then 3600 * m
    else if k < 4 then 360 * m
    else if k < 5 then 180 * m
    else if k < 6 then 90 * m
    else 45 * m
  }

  /** Number of level-k rows (and columns) in one level-(k-1) cell. */
  function Split(k: Level): nat
    requires 2 <= k
  {
    if k < 3 then 8 else if k < 4 then 10 else 2
  }

  /** `m` level-(k-1) rows expressed in level-k rows. */
  function Scale(k: Level, m: int): int
    requires 2 <= k
  {
    if k < 3 then 8 * m else if k < 4 then 10 * m else 2 * m
  }

  /** The row of level `j`'s cell inside its parent: the row digit at levels
      2 and 3, 1 for the northern quadrants 3 and 4. */
  function LatDigit(j: Level, code: string): (n: nat)
    requires 2 <= j && Len(j) <= |code| && SuffixOk(j, code)
    ensures n < Split(j)
  {
    var ch := code[Len(j - 1)];
    if j < 4 then Digit(ch)
    else if ch == '3' || ch == '4' then 1
    else 0
  }

  /** The column of level `j`'s cell inside its parent: the column digit at
      levels 2 and 3, 1 for the eastern quadrants 2 and 4. */
  function LonDigit(j: Level, code: string): (n: nat)
    requires 2 <= j && Len(j) <= |code| && SuffixOk(j, code)
    ensures n < Split(j)
  {
    var i := Len(j - 1);
    if j < 4 then Digit(code[i + 1])
    else if code[i] == '2' || code[i] == '4' then 1
    else 0
  }

  /** The row of the cell, counted in level-k rows from the southern border
      of the domain. */
  function RowIndex(b: Bounds, k: Level, code: string): int
    requires Len(k) <= |code| && ValidUpTo(b, k, code)
    decreases k
  {
    if k < 2 then LatField(b, code) - b.latMin
    else Scale(k, RowIndex(b, k - 1, code)) + LatDigit(k, code)
  }

  /** The column of the cell, counted in level-k columns from the western
      border of the domain. */
  function ColIndex(b: Bounds, k: Level, code: string): int
    requires Len(k) <= |code| && ValidUpTo(b, k, code)
    decreases k
  {
    if k < 2 then LonField(b, code) - b.lonMin
    else Scale(k, ColIndex(b, k - 1, code)) + LonDigit(k, code)
  }

  /** The anchor of every cell lies on the level-k grid: its south edge is a
      whole number of cell heights above the southern border, its west edge
      a whole number of cell widths east of the western border. */
  lemma {:induction false} OnGrid(b: Bounds, k: Level, code: string)
    requires Len(k) <= |code| && ValidUpTo(b, k, code)
    ensures South(b, k, code) == LatLo(b) + Rows(k, RowIndex(b, k, code))
    ensures West(b, k, code) == LonLo(b) + Cols(k, ColIndex(b, k, code))
    decreases k
  {
    if k >= 2 {
      AnchorStep(b, k, code);
      OnGrid(b, k - 1, code);
      StepOnGrid(k, code);
      ScaleOnGrid(k, RowIndex(b, k - 1, code), ColIndex(b, k - 1, code));
    }
  }

  /** Level `j`'s offset inside its parent is a whole number of its cells. */
  lemma StepOnGrid(j: Level, code: string)
    requires 2 <= j && Len(j) <= |code| && SuffixOk(j, code)
    ensures LatStep(j, code) == Rows(j, LatDigit(j, code))
    ensures LonStep(j, code) == Cols(j, LonDigit(j, code))
  {
  }

  /** A level-(k-1) cell is `Split(k)` level-k cells high and wide. */
  lemma ScaleOnGrid(k: Level, m: int, n: int)
    requires 2 <= k
    ensures Rows(k - 1, m) == Rows(k, Scale(k, m))
    ensures Cols(k - 1, n) == Cols(k, Scale(k, n))
  {
  }

  /** A number written with a digit below `n` in base `n` has one writing. */
  lemma Unscale(k: Level, p: int, x: int, q: int, y: int)
    requires 2 <= k && 0 <= x < Split(k) && 0 <= y < Split(k)
    requires Scale(k, p) + x == Scale(k, q) + y
    ensures p == q && x == y
  {
  }

  /** The two fields of a level-1 code determine its four characters. */
  lemma FieldsDetermineChars(b: Bounds, a: string, c: string)
    requires 4 <= |a| && FieldsOk(b, a) && 4 <= |c| && FieldsOk(b, c)
    requires LatField(b, a) == LatField(b, c) && LonField(b, a) == LonField(b, c)
    ensures forall i | 0 <= i < 4 :: a[i] == c[i]
  {
    assert Digit(a[0]) == Digit(c[0]) && Digit(a[1]) == Digit(c[1]);
    assert Digit(a[2]) == Digit(c[2]) && Digit(a[3]) == Digit(c[3]);
  }

  /** The row and column of level `j`'s cell inside its parent determine
      the level's suffix. */
  lemma SuffixDetermines(j: Level, a: string, c: string)
    requires 2 <= j && Len(j) <= |a| && Len(j) <= |c| && SuffixOk(j, a) && SuffixOk(j, c)
    requires LatDigit(j, a) == LatDigit(j, c) && LonDigit(j, a) == LonDigit(j, c)
    ensures forall i | Len(j - 1) <= i < Len(j) :: a[i] == c[i]
  {
    var i := Len(j - 1);
    if j < 4 {
      assert a[i] == c[i] && a[i + 1] == c[i + 1];
    } else {
      assert a[i] == c[i];
    }
  }

  /** Codes of the same row and column agree on their first `Len(k)` characters. */
  lemma {:induction false} IndexDetermines(b: Bounds, k: Level, a: string, c: string)
    requires Len(k) <= |a| && ValidUpTo(b, k, a)
    requires Len(k) <= |c| && ValidUpTo(b, k, c)
    requires RowIndex(b, k, a) == RowIndex(b, k, c) && ColIndex(b, k, a) == ColIndex(b, k, c)
    ensures forall i | 0 <= i < Len(k) :: a[i] == c[i]
    decreases k
  {
    if k < 2 {
      FieldsDetermineChars(b, a, c);
    } else {
      Unscale(k, RowIndex(b, k - 1, a), LatDigit(k, a), RowIndex(b, k - 1, c), LatDigit(k, c));
      Unscale(k, ColIndex(b, k - 1, a), LonDigit(k, a), ColIndex(b, k - 1, c), LonDigit(k, c));
      IndexDetermines(b, k - 1, a, c);
      SuffixDetermines(k, a, c);
    }
  }

  /** A valid code is determined by its south-west anchor. */
  lemma AnchorDetermines(b: Bounds, k: Level, a: string, c: string)
    requires ValidMesh(b, k, a) && ValidMesh(b, k, c)
    requires South(b, k, a) == South(b, k, c) && West(b, k, a) == West(b, k, c)
    ensures a == c
  {
    OnGrid(b, k, a);
    OnGrid(b, k, c);
    IndexDetermines(b, k, a, c);
  }

  /** Two moves in opposite directions, each displacing by one cell, lead
      back to the start. */
  lemma MovedBack(b: Bounds, k: Level, code: string, d: Dir, r: string, back: Option<string>)
    requires ValidMesh(b, k, code) && Moved(b, k, code, d, Some(r))
    requires ValidMesh(b, k, r) && Moved(b, k, r, Opposite(d), back)
    ensures back == Some(code)
  {
    InDomain(b, k, code);
    AnchorDetermines(b, k, back.value, code);
  }

  /** Moving back in the opposite direction undoes a move:
      `south_mesh(north_mesh(m)) == m`, `north_mesh(south_mesh(m)) == m`,
      and the same for east and west, wherever the first move succeeds. */
  lemma StepInverse(b: Bounds, k: Level, code: string, d: Dir)
    requires b.Valid() && ValidMesh(b, k, code) && Step(b, k, code, d).Some?
    ensures Step(b, k, Step(b, k, code, d).value, Opposite(d)) == Some(code)
  {
    var r := Step(b, k, code, d).value;
    StepMoves(b, k, code, d);
    StepMoves(b, k, r, Opposite(d));
    MovedBack(b, k, code, d, r, Step(b, k, r, Opposite(d)));
  }
}
