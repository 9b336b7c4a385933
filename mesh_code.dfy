/** The six-level area-mesh hierarchy: code lengths, validity, the
    constructor and the south/west anchors of a cell.

    Levels 1..6 have codes of length 4, 6, 8, 9, 10 and 11.  A level-k code
    (k >= 2) is a valid level-(k-1) code followed by a suffix: two digits
    '0'..'7' at level 2, two digits '0'..'9' at level 3 and one quadrant
    digit '1'..'4' at levels 4, 5 and 6.

    Extents are kept in exact integer units of 1/8 arc-second, so that every
    cell size is an integer:
      level 1: 19200 x 28800 (40' x 1°)     level 4: 120 x 180 (15" x 22.5")
      level 2:  2400 x  3600 (5' x 7'30")   level 5:  60 x  90 (7.5" x 11.25")
      level 3:   240 x   360 (30" x 45")    level 6:  30 x  45 (3.75" x 5.625") */
module MeshCode {
  import opened MeshBasics
  import opened Mesh1

  type Level = k: int | 1 <= k <= 6 witness 1

  function Len(k: Level): nat {
    if k < 2 then 4 else if k < 4 then 2 * k + 2 else k + 5
  }

  predicate IsDecimalLevel(k: Level) { 2 <= k <= 3 }

  /** Largest row/column digit of a decimal level: 8 x 8 at level 2, 10 x 10 at level 3. */
  function MaxChar(k: Level): (ch: char)
    requires IsDecimalLevel(k)
    ensures IsDigit(ch)
  {
    if k < 3 then '7' else '9'
  }

  /** South-north size of a level-k cell. */
  function Height(k: Level): nat {
    if k < 2 then 19200
    else if k < 3 then 2400
    else if k < 4 then 240
    else if k < 5 then 120
    else if k < 6 then 60
    else 30
  }

  /** West-east size of a level-k cell. */
  function Width(k: Level): nat {
    if k < 2 then 28800
    else if k < 3 then 3600
    else if k < 4 then 360
    else if k < 5 then 180
    else if k < 6 then 90
    else 45
  }

  /** The national domain: the union of all valid level-1 cells. */
  function LatLo(b: Bounds): int { b.latMin * 19200 }
  function LatHi(b: Bounds): int { (b.latMax + 1) * 19200 }
  function LonLo(b: Bounds): int { (b.lonMin + 100) * 28800 }
  function LonHi(b: Bounds): int { (b.lonMax + 101) * 28800 }

  /** The suffix that level `j` adds to its parent's code: two digits
      '0'..'7' at level 2, two digits '0'..'9' at level 3, one quadrant
      digit '1'..'4' at levels 4..6. */
  predicate SuffixOk(j: Level, code: string)
    requires 2 <= j && Len(j) <= |code|
  {
    var i := Len(j - 1);
    if j < 3 then '0' <= code[i] <= '7' && '0' <= code[i + 1] <= '7'
    else if j < 4 then '0' <= code[i] <= '9' && '0' <= code[i + 1] <= '9'
    else '1' <= code[i] <= '4'
  }

  /** The first `Len(k)` characters are a valid level-k code: the level-1
      fields are in bounds and the suffix of every level 2..k is in range.
      The code is read in place, position by position. */
  predicate ValidUpTo(b: Bounds, k: Level, code: string)
    requires Len(k) <= |code|
  {
    && FieldsOk(b, code)
    && (2 <= k ==> SuffixOk(2, code))
    && (3 <= k ==> SuffixOk(3, code))
    && (4 <= k ==> SuffixOk(4, code))
    && (5 <= k ==> SuffixOk(5, code))
    && (6 <= k ==> SuffixOk(6, code))
  }

  /** `validate_mesh<k>_code`: `Ok(())` exactly when the code has the
      level's length and is valid up to level k. */
  function Validate(b: Bounds, k: Level, code: string): Verdict {
    if |code| == Len(k) && ValidUpTo(b, k, code) then Accepted else InvalidMeshCode
  }

  predicate ValidMesh(b: Bounds, k: Level, code: string) {
    Validate(b, k, code) == Accepted
  }

  lemma ValidLength(b: Bounds, k: Level, code: string)
    requires ValidMesh(b, k, code)
    ensures |code| == Len(k) && ValidUpTo(b, k, code)
  {
  }

  /** `Mesh<k>::new`: the code is kept, unchanged, exactly when it validates. */
  function New(b: Bounds, k: Level, code: string): (r: Option<string>)
    ensures r.Some? <==> ValidMesh(b, k, code)
    ensures r.Some? ==> r.value == code
  {
    if ValidMesh(b, k, code) then Some(code) else None
  }

  /** The quadrant digit of a level 4..6 code (1 = SW, 2 = SE, 3 = NW, 4 = NE). */
  function Quadrant(b: Bounds, k: Level, code: string): (q: nat)
    requires k >= 4 && ValidMesh(b, k, code)
    ensures 1 <= q <= 4
  {
    Digit(code[Len(k - 1)])
  }

  /** Offset of row `n` of a decimal level from the parent's south edge:
      `n` cell heights (written per level so that it stays linear). */
  function RowOffset(k: Level, n: nat): int
    requires IsDecimalLevel(k)
  {
    if k < 3 then 2400 * n else 240 * n
  }

  /** Offset of column `n` of a decimal level from the parent's west edge. */
  function ColOffset(k: Level, n: nat): int
    requires IsDecimalLevel(k)
  {
    if k < 3 then 3600 * n else 360 * n
  }

  /** Rows and columns of a decimal level tile the parent exactly. */
  lemma DecimalOffset(k: Level, n: nat)
    requires IsDecimalLevel(k)
    ensures RowOffset(k, n + 1) == RowOffset(k, n) + Height(k)
    ensures ColOffset(k, n + 1) == ColOffset(k, n) + Width(k)
    ensures RowOffset(k, Digit(MaxChar(k))) + Height(k) == Height(k - 1)
    ensures ColOffset(k, Digit(MaxChar(k))) + Width(k) == Width(k - 1)
    ensures RowOffset(k, 0) == 0 && ColOffset(k, 0) == 0
  {
  }

  /** A quadrant level halves its parent's cell in both directions. */
  lemma HalfSize(k: Level)
    requires k >= 4
    ensures Height(k - 1) == 2 * Height(k) && Width(k - 1) == 2 * Width(k)
  {
  }

  /** The south-north offset of level `j`'s cell inside its parent: row
      digit x cell height at levels 2 and 3, one cell height for the
      northern quadrants 3 and 4. */
  function LatStep(j: Level, code: string): int
    requires 2 <= j && Len(j) <= |code| && SuffixOk(j, code)
  {
    var ch := code[Len(j - 1)];
    if j < 4 then RowOffset(j, Digit(ch))
    else if ch == '3' || ch == '4' then Height(j)
    else 0
  }

  /** The west-east offset of level `j`'s cell inside its parent: column
      digit x cell width at levels 2 and 3, one cell width for the eastern
      quadrants 2 and 4. */
  function LonStep(j: Level, code: string): int
    requires 2 <= j && Len(j) <= |code| && SuffixOk(j, code)
  {
    var i := Len(j - 1);
    if j < 4 then ColOffset(j, Digit(code[i + 1]))
    else if code[i] == '2' || code[i] == '4' then Width(j)
    else 0
  }

  /** Each level's offset keeps its cell inside the parent cell. */
  lemma StepBounds(j: Level, code: string)
    requires 2 <= j && Len(j) <= |code| && SuffixOk(j, code)
    ensures 0 <= LatStep(j, code) && LatStep(j, code) + Height(j) <= Height(j - 1)
    ensures 0 <= LonStep(j, code) && LonStep(j, code) + Width(j) <= Width(j - 1)
  {
  }

  /** `south()`: the level-1 latitude field times 40', plus the offset of
      every level 2..k inside its parent.  Read in place on any code valid
      up to level k. */
  function South(b: Bounds, k: Level, code: string): int
    requires Len(k) <= |code| && ValidUpTo(b, k, code)
  {
    LatField(b, code) * 19200
      + (if 2 <= k then LatStep(2, code) else 0)
      + (if 3 <= k then LatStep(3, code) else 0)
      + (if 4 <= k then LatStep(4, code) else 0)
      + (if 5 <= k then LatStep(5, code) else 0)
      + (if 6 <= k then LatStep(6, code) else 0)
  }

  /** `west()`: the level-1 longitude field plus 100, times 1°, plus the
      offset of every level 2..k inside its parent. */
  function West(b: Bounds, k: Level, code: string): int
    requires Len(k) <= |code| && ValidUpTo(b, k, code)
  {
    (LonField(b, code) + 100) * 28800
      + (if 2 <= k then LonStep(2, code) else 0)
      + (if 3 <= k then LonStep(3, code) else 0)
      + (if 4 <= k then LonStep(4, code) else 0)
      + (if 5 <= k then LonStep(5, code) else 0)
      + (if 6 <= k then LonStep(6, code) else 0)
  }

  /** Every cell lies inside the national domain. */
  lemma {:induction false} InDomain(b: Bounds, k: Level, code: string)
    requires Len(k) <= |code| && ValidUpTo(b, k, code)
    ensures LatLo(b) <= South(b, k, code) && South(b, k, code) + Height(k) <= LatHi(b)
    ensures LonLo(b) <= West(b, k, code) && West(b, k, code) + Width(k) <= LonHi(b)
    decreases k
  {
    if k > 1 {
      InDomain(b, k - 1, code);
      StepBounds(k, code);
    }
  }

  /** Validity up to level j, and the anchor at level j, depend only on the
      first `Len(j)` characters. */
  lemma PrefixAgree(b: Bounds, j: Level, a: string, c: string)
    requires Len(j) <= |a| && Len(j) <= |c|
    requires forall i | 0 <= i < Len(j) :: a[i] == c[i]
    ensures ValidUpTo(b, j, a) == ValidUpTo(b, j, c)
    ensures ValidUpTo(b, j, a) ==> South(b, j, a) == South(b, j, c) && West(b, j, a) == West(b, j, c)
  {
    assert a[0] == c[0] && a[1] == c[1] && a[2] == c[2] && a[3] == c[3];
  }

  /** Validity up to level k includes validity up to every level below. */
  lemma ValidUpToLower(b: Bounds, k: Level, j: Level, code: string)
    requires j <= k && Len(k) <= |code| && ValidUpTo(b, k, code)
    ensures Len(j) <= |code| && ValidUpTo(b, j, code)
  {
  }

  /** The validator as the source writes it: the length is checked first,
      then the level-(k-1) prefix is validated, then the suffix. */
  lemma ValidateAsWritten(b: Bounds, k: Level, code: string)
    ensures Validate(b, k, code) ==
      if k < 2 then (if ValidMesh1Code(b, code) then Accepted else InvalidMeshCode)
      else if |code| != Len(k) then InvalidMeshCode
      else if Validate(b, k - 1, code[..Len(k - 1)]) != Accepted then InvalidMeshCode
      else if SuffixOk(k, code) then Accepted
      else InvalidMeshCode
  {
    if k > 1 && |code| == Len(k) {
      PrefixAgree(b, k - 1, code, code[..Len(k - 1)]);
    }
  }

  /** `validate_mesh<k>_code` exactly as the source chains it: every level
      checks its length, validates its level-(k-1) prefix and checks its
      suffix, so level 1 at the bottom is the string-comparing
      `validate_mesh1_code`. */
  function ValidateChainAsWritten(b: Bounds, k: Level, code: string): Verdict
    requires b.Valid()
    decreases k
  {
    if k < 2 then (if ValidMesh1CodeAsWritten(b, code) then Accepted else InvalidMeshCode)
    else if |code| != Len(k) then InvalidMeshCode
    else if ValidateChainAsWritten(b, k - 1, code[..Len(k - 1)]) != Accepted then InvalidMeshCode
    else if SuffixOk(k, code) then Accepted
    else InvalidMeshCode
  }

  /** The model's validator accepts exactly the codes the chain as written
      accepts whose first four characters, the level-1 fields, are digits. */
  lemma {:induction false} ValidateIsChainOnDigits(b: Bounds, k: Level, code: string)
    requires b.Valid()
    ensures ValidMesh(b, k, code) <==>
      ValidateChainAsWritten(b, k, code) == Accepted && 4 <= |code| && AllDigits(code[..4])
    decreases k
  {
    ValidateAsWritten(b, k, code);
    if k < 2 {
      ValidMesh1CodeIsAsWrittenOnDigits(b, code);
      if |code| == 4 {
        assert code[..4] == code;
      }
    } else if |code| == Len(k) {
      var p := code[..Len(k - 1)];
      ValidateIsChainOnDigits(b, k - 1, p);
      assert p[..4] == code[..4];
    }
  }

  /** Every level inherits the level-1 quirk: the chain as written accepts
      the level-2 code "3:2200", which the model's validator rejects. */
  lemma AsWrittenChainAcceptsNonDigitField()
    ensures ValidateChainAsWritten(RootCrateBounds, 2, "3:2200") == Accepted
    ensures Validate(RootCrateBounds, 2, "3:2200") == InvalidMeshCode
  {
    AsWrittenAcceptsNonDigitField();
    assert "3:2200"[..4] == "3:22";
    assert !IsDigit("3:2200"[1]);
  }

  /** The anchor as the source computes it: the parent's anchor plus this
      level's offset. */
  lemma AnchorAsWritten(b: Bounds, k: Level, code: string)
    requires 2 <= k && ValidMesh(b, k, code)
    ensures ValidMesh(b, k - 1, code[..Len(k - 1)])
    ensures South(b, k, code) == South(b, k - 1, code[..Len(k - 1)]) + LatStep(k, code)
    ensures West(b, k, code) == West(b, k - 1, code[..Len(k - 1)]) + LonStep(k, code)
  {
    PrefixAgree(b, k - 1, code, code[..Len(k - 1)]);
  }

  /** The anchor at level k is the anchor at level k-1 plus level k's offset,
      read on the same code. */
  lemma AnchorStep(b: Bounds, k: Level, code: string)
    requires 2 <= k && Len(k) <= |code| && ValidUpTo(b, k, code)
    ensures Len(k - 1) <= |code| && ValidUpTo(b, k - 1, code)
    ensures South(b, k, code) == South(b, k - 1, code) + LatStep(k, code)
    ensures West(b, k, code) == West(b, k - 1, code) + LonStep(k, code)
  {
  }

  /** Two codes of the same level that share their parent: the second is
      valid when its own suffix is, and the two anchors differ only by the
      two suffixes' offsets. */
  lemma Sibling(b: Bounds, k: Level, code: string, c: string)
    requires 2 <= k && ValidMesh(b, k, code)
    requires |c| == Len(k) && SuffixOk(k, c)
    requires forall i | 0 <= i < Len(k - 1) :: c[i] == code[i]
    ensures ValidMesh(b, k, c)
    ensures South(b, k, c) - LatStep(k, c) == South(b, k, code) - LatStep(k, code)
    ensures West(b, k, c) - LonStep(k, c) == West(b, k, code) - LonStep(k, code)
  {
    AnchorStep(b, k, code);
    PrefixAgree(b, k - 1, c, code);
    AnchorStep(b, k, c);
  }

  /** `north()`: derived from the south edge and the level's height. */
  function North(b: Bounds, k: Level, code: string): int
    requires ValidMesh(b, k, code)
  {
    South(b, k, code) + Height(k)
  }

  /** `east()`: derived from the west edge and the level's width. */
  function East(b: Bounds, k: Level, code: string): int
    requires ValidMesh(b, k, code)
  {
    West(b, k, code) + Width(k)
  }

  /** The cell of `inner` lies within the cell of `outer` (edges may touch). */
  predicate Within(b: Bounds, k: Level, inner: string, j: Level, outer: string)
    requires ValidMesh(b, k, inner) && ValidMesh(b, j, outer)
  {
    && South(b, j, outer) <= South(b, k, inner) && North(b, k, inner) <= North(b, j, outer)
    && West(b, j, outer) <= West(b, k, inner) && East(b, k, inner) <= East(b, j, outer)
  }

  /** Every prefix of a valid level-k code at a level boundary is a valid
      code of that level, with the same anchor as the code read at that level. */
  lemma PrefixValid(b: Bounds, k: Level, j: Level, code: string)
    requires j <= k && ValidMesh(b, k, code)
    ensures Len(j) <= |code| && ValidUpTo(b, j, code) && ValidMesh(b, j, code[..Len(j)])
    ensures South(b, j, code[..Len(j)]) == South(b, j, code)
    ensures West(b, j, code[..Len(j)]) == West(b, j, code)
  {
    ValidUpToLower(b, k, j, code);
    PrefixAgree(b, j, code, code[..Len(j)]);
  }

  /** A level-k cell lies within its parent's cell. */
  lemma ParentContains(b: Bounds, k: Level, code: string)
    requires k >= 2 && ValidMesh(b, k, code)
    ensures ValidMesh(b, k - 1, code[..Len(k - 1)])
    ensures Within(b, k, code, k - 1, code[..Len(k - 1)])
  {
    AnchorAsWritten(b, k, code);
    StepBounds(k, code);
  }

  /** `mesh1()` of a `Mesh2`, `mesh2()` of a `Mesh3`, ...: the parent, re-validated. */
  function Parent(b: Bounds, k: Level, code: string): (p: string)
    requires k >= 2 && ValidMesh(b, k, code)
    ensures ValidMesh(b, k - 1, p) && p == code[..Len(k - 1)]
  {
    PrefixValid(b, k, k - 1, code);
    New(b, k - 1, code[..Len(k - 1)]).value
  }

  /** `mesh1()`, `mesh2()`, ... of a level-k mesh: the level-j prefix,
      re-validated; the `unwrap()` never fails. */
  function Ancestor(b: Bounds, k: Level, j: Level, code: string): (a: string)
    requires j <= k && ValidMesh(b, k, code)
    ensures ValidMesh(b, j, a)
    ensures Len(j) <= |code| && a == code[..Len(j)]
  {
    PrefixValid(b, k, j, code);
    New(b, j, code[..Len(j)]).value
  }

  /** A cell lies within the cell of each of its ancestors. */
  lemma {:induction false} AncestorContains(b: Bounds, k: Level, j: Level, code: string)
    requires j <= k && ValidMesh(b, k, code)
    ensures Within(b, k, code, j, Ancestor(b, k, j, code))
    decreases k
  {
    if j < k {
      var p := Parent(b, k, code);
      ParentContains(b, k, code);
      AncestorContains(b, k - 1, j, p);
      assert Ancestor(b, k - 1, j, p) == Ancestor(b, k, j, code);
    } else {
      assert Ancestor(b, k, j, code) == code;
    }
  }
}
