/** Frames of the national base map (kokudo kihon zu) laid out on a plane
    rectangular coordinate system: classification of a frame code into one
    of five map-information levels, the frame's extent in metres, and the
    frame that contains a point. */
module BaseMapFrames {
  import opened MeshBasics

  /** `BaseMapFrameLevel`: the map-information levels 1:50000 … 1:500. */
  datatype FrameLevel = L50000 | L5000 | L2500 | L1000 | L500

  /** `BaseMapFrame`: a frame code tagged with its level. */
  datatype BaseMapFrame =
    | Level50000(code: string)
    | Level5000(code: string)
    | Level2500(code: string)
    | Level1000(code: string)
    | Level500(code: string)
  {
    /** `level()`. */
    function Level(): (l: FrameLevel)
      ensures Make(l, code) == this
    {
      match this
      case Level50000(_) => L50000
      case Level5000(_) => L5000
      case Level2500(_) => L2500
      case Level1000(_) => L1000
      case Level500(_) => L500
    }

    /** `width()`: the east-west size of the frame in metres. */
    function Width(): nat {
      match this
      case Level50000(_) => 40000
      case Level5000(_) => 4000
      case Level2500(_) => 2000
      case Level1000(_) => 800
      case Level500(_) => 400
    }

    /** `height()`: the north-south size of the frame in metres. */
    function Height(): nat {
      match this
      case Level50000(_) => 30000
      case Level5000(_) => 3000
      case Level2500(_) => 1500
      case Level1000(_) => 600
      case Level500(_) => 300
    }

    /** What the `level_*_left_top` helper of this frame's level asserts
        about the code before decoding it. */
    predicate Decodable() {
      match this
      case Level50000(c) => Head50000Ok(c)
      case Level5000(c) => Head5000Ok(c)
      case Level2500(c) => Head2500Ok(c)
      case Level1000(c) => Head1000Ok(c)
      case Level500(c) => Head500Ok(c)
    }

    /** `left_top` of the frame: the north-west corner. */
    function LeftTop(): (p: (int, int))
      requires Decodable()
    {
      match this
      case Level50000(c) => LeftTop50000(c)
      case Level5000(c) => LeftTop5000(c)
      case Level2500(c) => LeftTop2500(c)
      case Level1000(c) => LeftTop1000(c)
      case Level500(c) => LeftTop500(c)
    }

    /** `extent()`: the frame as a rectangle, bottom = top − height and
        right = left + width; it lies inside the coordinate system's
        area [−160000, 160000) × [−300000, 300000) and so fits in `i32`. */
    function Extent(): (e: FrameExtent)
      requires Decodable()
      ensures e.right - e.left == Width() && e.top - e.bottom == Height()
      ensures e.InArea()
    {
      var (x, y) := LeftTop();
      FrameExtent(x, y - Height(), x + Width(), y)
    }
  }

  /** The variant of `BaseMapFrame` for a level. */
  function Make(l: FrameLevel, code: string): (f: BaseMapFrame)
    ensures f.code == code
  {
    match l
    case L50000 => Level50000(code)
    case L5000 => Level5000(code)
    case L2500 => Level2500(code)
    case L1000 => Level1000(code)
    case L500 => Level500(code)
  }

  /** `BaseMapFrameErr`. */
  datatype FrameError = InvalidFrameCode | XOutOfRange | YOutOfRange | FrameDoesNotExist

  /** The outcome of a call that returns `Result<BaseMapFrame, _>` or
      panics. */
  datatype Outcome = Ok(frame: BaseMapFrame) | Err(error: FrameError) | Panic

  /** `FrameExtent`: left, bottom, right and top in metres. */
  datatype FrameExtent = FrameExtent(left: int, bottom: int, right: int, top: int) {
    /** Inside the area of one plane rectangular coordinate system. */
    predicate InArea() {
      -160000 <= left && right <= 160000 && -300000 <= bottom && top <= 300000
    }

    /** The point lies in the half-open rectangle [left, right) × [bottom, top). */
    predicate Contains(x: real, y: real) {
      left as real <= x < right as real && bottom as real <= y < top as real
    }

    /** `width()`: `(right - left) as u32`, which wraps a negative
        difference modulo 2^32. */
    function Width(): (w: nat)
      requires -0x8000_0000 <= right - left < 0x8000_0000
      ensures w < 0x1_0000_0000
      ensures left <= right ==> w == right - left
      ensures right < left ==> w == right - left + 0x1_0000_0000
    {
      (right - left) % 0x1_0000_0000
    }

    /** `height()`: `(top - bottom) as u32`. */
    function Height(): (h: nat)
      requires -0x8000_0000 <= top - bottom < 0x8000_0000
      ensures h < 0x1_0000_0000
      ensures bottom <= top ==> h == top - bottom
      ensures top < bottom ==> h == top - bottom + 0x1_0000_0000
    {
      (top - bottom) % 0x1_0000_0000
    }
  }

  // ---------------------------------------------------------------------
  // Classification

  /** The four characters every frame code starts with: the coordinate
      system's two digits (`[0-1][0-9]`), the row `[A-T]` and the column
      `[A-H]` of the level-50000 frame. */
  predicate FrameHead(s: string)
    requires 4 <= |s|
  {
    '0' <= s[0] <= '1' && IsDigit(s[1]) && 'A' <= s[2] <= 'T' && 'A' <= s[3] <= 'H'
  }

  /** The `LEVEL_*_PATTERN` regular expression of a level, as per-position
      character classes. */
  predicate Matches(l: FrameLevel, s: string) {
    match l
    case L50000 => |s| == 4 && FrameHead(s)
    case L5000 => |s| == 6 && FrameHead(s) && IsDigit(s[4]) && IsDigit(s[5])
    case L2500 => |s| == 7 && FrameHead(s) && IsDigit(s[4]) && IsDigit(s[5]) && '1' <= s[6] <= '4'
    case L1000 => |s| == 8 && FrameHead(s) && IsDigit(s[4]) && IsDigit(s[5]) && '0' <= s[6] <= '4' && 'A' <= s[7] <= 'E'
    case L500 => |s| == 8 && FrameHead(s) && IsDigit(s[4]) && IsDigit(s[5]) && IsDigit(s[6]) && IsDigit(s[7])
  }

  /** `BaseMapFrame::try_from`: the first level whose pattern matches, or
      `InvalidFrameCode` when none does. */
  function TryFrom(s: string): (r: Outcome)
    ensures !r.Panic?
    ensures r.Ok? ==> r.frame.code == s && Matches(r.frame.Level(), s)
    ensures r.Err? ==> r.error == InvalidFrameCode && forall l: FrameLevel :: !Matches(l, s)
  {
    if Matches(L50000, s) then Ok(Level50000(s))
    else if Matches(L5000, s) then Ok(Level5000(s))
    else if Matches(L2500, s) then Ok(Level2500(s))
    else if Matches(L1000, s) then Ok(Level1000(s))
    else if Matches(L500, s) then Ok(Level500(s))
    else Err(InvalidFrameCode)
  }

  /** No string matches two patterns: the level is determined by the code. */
  lemma PatternsExclusive(l: FrameLevel, m: FrameLevel, s: string)
    requires Matches(l, s) && Matches(m, s)
    ensures l == m
  {
  }

  /** `try_from` accepts exactly the codes matching some pattern, and tags
      them with that pattern's level. */
  lemma TryFromIff(s: string, l: FrameLevel)
    ensures TryFrom(s) == Ok(Make(l, s)) <==> Matches(l, s)
  {
    if Matches(l, s) {
      PatternsExclusive(l, TryFrom(s).frame.Level(), s);
    }
  }

  // ---------------------------------------------------------------------
  // Extents

  /** The asserts of `level_50000_left_top`. */
  predicate Head50000Ok(c: string) {
    4 <= |c| && 'A' <= c[2] <= 'T' && 'A' <= c[3] <= 'H'
  }

  /** The asserts of `level_5000_left_top`, including its call of the
      level-50000 helper. */
  predicate Head5000Ok(c: string) {
    6 <= |c| && IsDigit(c[4]) && IsDigit(c[5]) && Head50000Ok(c)
  }

  /** The asserts of `level_2500_left_top`; they allow '0', which the
      level-2500 pattern does not. */
  predicate Head2500Ok(c: string) {
    7 <= |c| && '0' <= c[6] <= '4' && Head5000Ok(c)
  }

  /** The asserts of `level_1000_left_top`. */
  predicate Head1000Ok(c: string) {
    8 <= |c| && '0' <= c[6] <= '4' && 'A' <= c[7] <= 'E' && Head5000Ok(c)
  }

  /** The asserts of `level_500_left_top`. */
  predicate Head500Ok(c: string) {
    8 <= |c| && IsDigit(c[6]) && IsDigit(c[7]) && Head5000Ok(c)
  }

  /** A `w` × `h` frame with north-west corner `p` lies inside the `pw` ×
      `ph` frame with north-west corner `q`. */
  predicate Nested(p: (int, int), w: int, h: int, q: (int, int), pw: int, ph: int) {
    q.0 <= p.0 && p.0 + w <= q.0 + pw && q.1 - ph <= p.1 - h && p.1 <= q.1
  }

  /** `level_50000_left_top`: column `c[3]` counts 40 km eastwards from
      x = −160000, row `c[2]` counts 30 km southwards from y = 300000; the
      frame lies in the coordinate system's area. */
  function LeftTop50000(c: string): (p: (int, int))
    requires Head50000Ok(c)
    ensures Nested(p, 40000, 30000, (-160000, 300000), 320000, 600000)
  {
    (-160000 + (c[3] as int - 'A' as int) * 40000, 300000 - (c[2] as int - 'A' as int) * 30000)
  }

  /** `level_5000_left_top`: digit `c[5]` counts 4 km east and digit `c[4]`
      3 km south inside the level-50000 frame, so the frame lies within it. */
  function LeftTop5000(c: string): (p: (int, int))
    requires Head5000Ok(c)
    ensures Nested(p, 4000, 3000, LeftTop50000(c), 40000, 30000)
  {
    var (x, y) := LeftTop50000(c);
    (x + Digit(c[5]) * 4000, y - Digit(c[4]) * 3000)
  }

  /** `level_2500_left_top`: quadrants 1 = NW, 2 = NE, 3 = SW, 4 = SE of the
      level-5000 frame; the even quadrants are the eastern half, 3 and 4 the
      southern half. */
  function LeftTop2500(c: string): (p: (int, int))
    requires Head2500Ok(c)
    ensures Nested(p, 2000, 1500, LeftTop5000(c), 4000, 3000)
    ensures Digit(c[6]) % 2 == 0 <==> p.0 > LeftTop5000(c).0
    ensures Digit(c[6]) >= 3 <==> p.1 < LeftTop5000(c).1
  {
    var (x, y) := LeftTop5000(c);
    var n := Digit(c[6]);
    var x' := if n % 2 == 0 then x + 2000 else x;
    var y' := if n >= 3 then y - 1500 else y;
    (x', y')
  }

  /** `level_1000_left_top`: digit `c[6]` counts 600 m south and letter
      `c[7]` 800 m east inside the level-5000 frame. */
  function LeftTop1000(c: string): (p: (int, int))
    requires Head1000Ok(c)
    ensures Nested(p, 800, 600, LeftTop5000(c), 4000, 3000)
  {
    var (x, y) := LeftTop5000(c);
    (x + (c[7] as int - 'A' as int) * 800, y - Digit(c[6]) * 600)
  }

  /** `level_500_left_top`: digit `c[6]` counts 300 m south and digit `c[7]`
      400 m east inside the level-5000 frame. */
  function LeftTop500(c: string): (p: (int, int))
    requires Head500Ok(c)
    ensures Nested(p, 400, 300, LeftTop5000(c), 4000, 3000)
  {
    var (x, y) := LeftTop5000(c);
    (x + Digit(c[7]) * 400, y - Digit(c[6]) * 300)
  }

  /** Every code that `try_from` accepts passes the asserts of its level's
      `left_top` helper, so `extent()` never panics on such a frame. */
  lemma AcceptedDecodable(s: string)
    requires TryFrom(s).Ok?
    ensures TryFrom(s).frame.Decodable()
  {
  }

  /** The frame extent's own `width()`/`height()` agree with the frame's:
      the `u32` casts never wrap on a decoded extent. */
  lemma ExtentSize(f: BaseMapFrame)
    requires f.Decodable()
    ensures f.Extent().Width() == f.Width() && f.Extent().Height() == f.Height()
  {
  }

  /** The enclosing frame one level up: the level-50000 frame of a level-5000
      code (its first four characters), and the level-5000 frame of a
      2500, 1000 or 500 code (its first six). */
  function ParentFrame(f: BaseMapFrame): (p: BaseMapFrame)
    requires !f.Level50000?
    requires TryFrom(f.code) == Ok(f)
    ensures TryFrom(p.code) == Ok(p)
    ensures p.Level() == (if f.Level5000? then L50000 else L5000)
  {
    if f.Level5000? then Level50000(f.code[..4]) else Level5000(f.code[..6])
  }

  /** A frame lies within its parent frame (a level-50000 frame holds the
      10 × 10 level-5000 frames; a level-5000 frame holds 4 level-2500,
      5 × 5 level-1000 and 10 × 10 level-500 frames). */
  lemma WithinParent(f: BaseMapFrame)
    requires !f.Level50000? && TryFrom(f.code) == Ok(f)
    ensures ParentFrame(f).Decodable() && f.Decodable()
    ensures ParentFrame(f).Extent().left <= f.Extent().left
    ensures f.Extent().right <= ParentFrame(f).Extent().right
    ensures ParentFrame(f).Extent().bottom <= f.Extent().bottom
    ensures f.Extent().top <= ParentFrame(f).Extent().top
  {
    var p := ParentFrame(f);
    var c := f.code;
    if f.Level5000? {
      assert LeftTop50000(p.code) == LeftTop50000(c);
    } else {
      assert LeftTop5000(p.code) == LeftTop5000(c);
    }
  }

  // ---------------------------------------------------------------------
  // The frame containing a point

  /** `format!("{:02}", system)` for a `u8`. */
  function SystemField(system: nat): (s: string)
    requires system < 256
    ensures 2 <= |s| <= 3
    ensures system < 100 ==> s == Pad2(system)
    ensures 100 <= system ==> |s| == 3 && s[0] == DigitChar(system / 100) && s[1..] == Pad2(system % 100)
  {
    PadU8(system)
  }

  /** Whole multiples of `unit` in a non-negative `v`: `(v / unit) as u8`
      for the values that occur here. */
  function Times(v: real, unit: real): (n: int)
    requires 0.0 <= v && 0.0 < unit
    ensures 0 <= n && n as real * unit <= v
    ensures v < (n as real + 1.0) * unit
  {
    var q := v / unit;
    var n := q.Floor;
    assert n as real <= q < n as real + 1.0;
    assert q * unit == v;
    MulMonotone(n as real, q, unit);
    MulMonotone(q, n as real + 1.0, unit);
    assert v < (n as real + 1.0) * unit;
    n
  }

  /** What is left of `v` after `Times(v, unit)` whole units:
      `v - (v / unit) as u8 as f64 * unit`. */
  function Rem(v: real, unit: real): (r: real)
    requires 0.0 <= v && 0.0 < unit
    ensures 0.0 <= r < unit && v == Times(v, unit) as real * unit + r
  {
    v - Times(v, unit) as real * unit
  }

  /** `Times` is the one whole number of units that fits. */
  lemma TimesUnique(v: real, unit: real, k: int)
    requires 0.0 <= v && 0.0 < unit
    requires k as real * unit <= v < (k as real + 1.0) * unit
    ensures Times(v, unit) == k
  {
    var n := Times(v, unit);
    MulCancel(n as real, k as real + 1.0, unit, v);
    MulCancel(k as real, n as real + 1.0, unit, v);
  }

  /** Whatever fits below both sides: `a * c <= v < b * c` forces `a < b`. */
  lemma MulCancel(a: real, b: real, c: real, v: real)
    requires 0.0 < c && a * c <= v && v < b * c
    ensures a < b
  {
    if b <= a {
      MulMonotone(b, a, c);
    }
  }

  lemma MulMonotone(a: real, b: real, c: real)
    requires a <= b && 0.0 < c
    ensures a * c <= b * c && (a < b ==> a * c < b * c)
  {
  }

  /** The code `from_level_xy` builds for a point of the area, up to the
      requested level: the level-50000 row (from 'T' at the south) and
      column, then the level-5000 row (from 9 at the south) and column, then
      the level's own suffix.  The arguments are offsets from the south-west
      corner of the area. */
  function FrameCodeAt(system: nat, l: FrameLevel, dx: real, dy: real): (s: string)
    requires system < 256
    requires 0.0 <= dx < 320000.0 && 0.0 <= dy < 600000.0
  {
    var head := HeadAt(system, dx, dy);
    if l.L50000? then head
    else
      var dx1, dy1 := Rem(dx, 40000.0), Rem(dy, 30000.0);
      head + Suffix5000At(dx1, dy1) + SuffixAt(l, Rem(dx1, 4000.0), Rem(dy1, 3000.0))
  }

  /** The system field and the level-50000 row ('A' at the north, 'T' at the
      south) and column ('A' at the west) of the point. */
  function HeadAt(system: nat, dx: real, dy: real): (s: string)
    requires system < 256
    requires 0.0 <= dx < 320000.0 && 0.0 <= dy < 600000.0
    ensures 4 <= |s| <= 5
  {
    SystemField(system) + [('T' as int - Times(dy, 30000.0)) as char, ('A' as int + Times(dx, 40000.0)) as char]
  }

  /** The level-5000 row (0 at the north) and column digits of the point,
      from its offsets inside the level-50000 frame. */
  function Suffix5000At(dx: real, dy: real): (s: string)
    requires 0.0 <= dx < 40000.0 && 0.0 <= dy < 30000.0
    ensures |s| == 2
  {
    [DigitChar(9 - Times(dy, 3000.0)), DigitChar(Times(dx, 4000.0))]
  }

  /** The suffix of levels 2500, 1000 and 500 from the point's offsets inside
      the level-5000 frame: the quadrant (3 or 4 in the southern half, 2 or 4
      in the eastern half), or the row digit and the column letter or digit. */
  function SuffixAt(l: FrameLevel, dx: real, dy: real): (s: string)
    requires 0.0 <= dx < 4000.0 && 0.0 <= dy < 3000.0
  {
    match l
    case L50000 => []
    case L5000 => []
    case L2500 =>
      var n := if dy < 1500.0 then 3 else 1;
      var n' := if dx < 2000.0 then n else n + 1;
      [DigitChar(n')]
    case L1000 =>
      [DigitChar(4 - Times(dy, 600.0)), ('A' as int + Times(dx, 800.0)) as char]
    case L500 =>
      [DigitChar(9 - Times(dy, 300.0)), DigitChar(Times(dx, 400.0))]
  }

  /** The range checks of `from_level_xy`: x first, then y. */
  function RangeCheck(x: real, y: real): (r: Option<FrameError>)
    ensures r == Some(XOutOfRange) <==> !(-160000.0 <= x < 160000.0)
    ensures r == Some(YOutOfRange) <==> -160000.0 <= x < 160000.0 && !(-300000.0 <= y < 300000.0)
    ensures r.None? <==> -160000.0 <= x < 160000.0 && -300000.0 <= y < 300000.0
  {
    if !(-160000.0 <= x < 160000.0) then Some(XOutOfRange)
    else if !(-300000.0 <= y < 300000.0) then Some(YOutOfRange)
    else None
  }

  /** `from_level_xy` as written: levels 50000 and 5000 return `try_from`'s
      result, levels 2500, 1000 and 500 `unwrap` it and so panic when it is
      an error. */
  function FromLevelXyAsWritten(system: nat, l: FrameLevel, x: real, y: real): (r: Outcome)
    requires system < 256
    ensures RangeCheck(x, y).Some? ==> r == Err(RangeCheck(x, y).value)
  {
    match RangeCheck(x, y)
    case Some(e) => Err(e)
    case None =>
      var code := FrameCodeAt(system, l, x + 160000.0, y + 300000.0);
      var t := TryFrom(code);
      if l.L50000? || l.L5000? || t.Ok? then t else Panic
  }

  /** `from_level_xy` with the error of `try_from` returned at every level. */
  function FromLevelXy(system: nat, l: FrameLevel, x: real, y: real): (r: Outcome)
    requires system < 256
    ensures !r.Panic?
    ensures RangeCheck(x, y).Some? ==> r == Err(RangeCheck(x, y).value)
  {
    match RangeCheck(x, y)
    case Some(e) => Err(e)
    case None => TryFrom(FrameCodeAt(system, l, x + 160000.0, y + 300000.0))
  }

  /** The two agree wherever the code `from_level_xy` builds is valid. */
  lemma AsWrittenAgrees(system: nat, l: FrameLevel, x: real, y: real)
    requires system < 256
    ensures FromLevelXyAsWritten(system, l, x, y).Panic? <==>
              RangeCheck(x, y).None? && !(l.L50000? || l.L5000?) && FromLevelXy(system, l, x, y).Err?
    ensures !FromLevelXyAsWritten(system, l, x, y).Panic? ==>
              FromLevelXyAsWritten(system, l, x, y) == FromLevelXy(system, l, x, y)
  {
  }

  /** The level-50000 frame of the code built for a point is the one whose
      cell of the 8 × 20 grid holds the point. */
  lemma CodeAt50000(system: nat, l: FrameLevel, dx: real, dy: real)
    requires system < 20 && 0.0 <= dx < 320000.0 && 0.0 <= dy < 600000.0
    ensures var c := FrameCodeAt(system, l, dx, dy);
      Head50000Ok(c) && FrameHead(c) && c[..2] == Pad2(system) &&
      LeftTop50000(c) == (-160000 + Times(dx, 40000.0) * 40000, -300000 + (Times(dy, 30000.0) + 1) * 30000)
  {
  }

  /** The level-5000 frame of the code built for a point: the cell of the
      10 × 10 grid inside the level-50000 frame that holds the point. */
  lemma CodeAt5000(system: nat, l: FrameLevel, dx: real, dy: real)
    requires system < 20 && 0.0 <= dx < 320000.0 && 0.0 <= dy < 600000.0 && !l.L50000?
    ensures var c := FrameCodeAt(system, l, dx, dy);
      Head5000Ok(c) && FrameHead(c) &&
      LeftTop5000(c) == (LeftTop50000(c).0 + Times(Rem(dx, 40000.0), 4000.0) * 4000,
                         LeftTop50000(c).1 - 30000 + (Times(Rem(dy, 30000.0), 3000.0) + 1) * 3000)
  {
    CodeAt50000(system, l, dx, dy);
  }

  /** The code built for the point at offsets (`dx`, `dy`) from the south-west
      corner names a frame of level `l` of system `system` that holds the point. */
  predicate FoundAt(system: nat, l: FrameLevel, dx: real, dy: real)
    requires system < 256 && 0.0 <= dx < 320000.0 && 0.0 <= dy < 600000.0
  {
    var c := FrameCodeAt(system, l, dx, dy);
    var f := Make(l, c);
    Matches(l, c) && |c| >= 2 && c[..2] == Pad2(system) &&
    f.Decodable() && f.Extent().Contains(dx - 160000.0, dy - 300000.0)
  }

  lemma Finds50000(system: nat, dx: real, dy: real)
    requires system < 20 && 0.0 <= dx < 320000.0 && 0.0 <= dy < 600000.0
    ensures FoundAt(system, L50000, dx, dy)
  {
    CodeAt50000(system, L50000, dx, dy);
  }

  lemma Finds5000(system: nat, dx: real, dy: real)
    requires system < 20 && 0.0 <= dx < 320000.0 && 0.0 <= dy < 600000.0
    ensures FoundAt(system, L5000, dx, dy)
  {
    CodeAt5000(system, L5000, dx, dy);
  }

  lemma Finds2500(system: nat, dx: real, dy: real)
    requires system < 20 && 0.0 <= dx < 320000.0 && 0.0 <= dy < 600000.0
    ensures FoundAt(system, L2500, dx, dy)
  {
    CodeAt5000(system, L2500, dx, dy);
  }

  lemma Finds1000(system: nat, dx: real, dy: real)
    requires system < 20 && 0.0 <= dx < 320000.0 && 0.0 <= dy < 600000.0
    ensures FoundAt(system, L1000, dx, dy)
  {
    CodeAt5000(system, L1000, dx, dy);
  }

  lemma Finds500(system: nat, dx: real, dy: real)
    requires system < 20 && 0.0 <= dx < 320000.0 && 0.0 <= dy < 600000.0
    ensures FoundAt(system, L500, dx, dy)
  {
    CodeAt5000(system, L500, dx, dy);
  }

  /** For a point of the area and a coordinate system written with the
      two-digit field `[0-1][0-9]`, `from_level_xy` finds a frame of the
      requested level whose extent contains the point. */
  lemma FromLevelXyFinds(system: nat, l: FrameLevel, x: real, y: real)
    requires system < 20 && -160000.0 <= x < 160000.0 && -300000.0 <= y < 300000.0
    ensures var r := FromLevelXy(system, l, x, y);
      r.Ok? && r.frame.Level() == l && r.frame.code[..2] == Pad2(system) &&
      r.frame.Decodable() && r.frame.Extent().Contains(x, y)
  {
    var dx, dy := x + 160000.0, y + 300000.0;
    var c := FrameCodeAt(system, l, dx, dy);
    assert FromLevelXy(system, l, x, y) == TryFrom(c);
    TryFromIff(c, l);
    match l
    case L50000 => Finds50000(system, dx, dy);
    case L5000 => Finds5000(system, dx, dy);
    case L2500 => Finds2500(system, dx, dy);
    case L1000 => Finds1000(system, dx, dy);
    case L500 => Finds500(system, dx, dy);
  }

  /** The coordinate system a frame code names: its first two digits. */
  function FrameSystem(f: BaseMapFrame): (system: nat)
    requires 2 <= |f.code| && '0' <= f.code[0] <= '1' && IsDigit(f.code[1])
    ensures system < 20 && Pad2(system) == f.code[..2]
  {
    Pad2OfNum2(f.code[..2]);
    Num2(f.code[..2])
  }

  /** A point of the level-50000 frame in row `c[2]` and column `c[3]` leads
      back to the code's first four characters. */
  lemma HeadRecovered(c: string, dx: real, dy: real)
    requires 4 <= |c| && FrameHead(c)
    requires 0.0 <= dx < 320000.0 && 0.0 <= dy < 600000.0
    requires var col := c[3] as int - 'A' as int;
      (col * 40000) as real <= dx < (col * 40000 + 40000) as real
    requires var row := c[2] as int - 'A' as int;
      ((19 - row) * 30000) as real <= dy < ((19 - row) * 30000 + 30000) as real
    ensures HeadAt(Num2(c[..2]), dx, dy) == c[..4]
    ensures Times(dx, 40000.0) == c[3] as int - 'A' as int
    ensures Times(dy, 30000.0) == 19 - (c[2] as int - 'A' as int)
  {
    Pad2OfNum2(c[..2]);
    TimesUnique(dx, 40000.0, c[3] as int - 'A' as int);
    TimesUnique(dy, 30000.0, 19 - (c[2] as int - 'A' as int));
  }

  /** A point of the level-5000 frame in row `r` and column `q` of its
      level-50000 frame leads back to the two digits. */
  lemma Suffix5000Recovered(r: char, q: char, dx: real, dy: real)
    requires IsDigit(r) && IsDigit(q)
    requires 0.0 <= dx < 40000.0 && 0.0 <= dy < 30000.0
    requires (Digit(q) * 4000) as real <= dx < (Digit(q) * 4000 + 4000) as real
    requires ((9 - Digit(r)) * 3000) as real <= dy < ((9 - Digit(r)) * 3000 + 3000) as real
    ensures Suffix5000At(dx, dy) == [r, q]
    ensures Times(dx, 4000.0) == Digit(q) && Times(dy, 3000.0) == 9 - Digit(r)
  {
    TimesUnique(dx, 4000.0, Digit(q));
    TimesUnique(dy, 3000.0, 9 - Digit(r));
    DigitCharOfDigit(r);
    DigitCharOfDigit(q);
  }

  /** The offsets inside the level-5000 frame of a point of the level-`l`
      frame with suffix `t` (quadrant, or row and column). */
  predicate InSuffixCell(l: FrameLevel, t: string, dx: real, dy: real) {
    match l
    case L50000 => t == []
    case L5000 => t == []
    case L2500 =>
      |t| == 1 && '1' <= t[0] <= '4' &&
      (if Digit(t[0]) % 2 == 0 then 2000.0 <= dx < 4000.0 else 0.0 <= dx < 2000.0) &&
      (if Digit(t[0]) >= 3 then 0.0 <= dy < 1500.0 else 1500.0 <= dy < 3000.0)
    case L1000 =>
      |t| == 2 && '0' <= t[0] <= '4' && 'A' <= t[1] <= 'E' &&
      ((t[1] as int - 'A' as int) * 800) as real <= dx < ((t[1] as int - 'A' as int) * 800 + 800) as real &&
      ((4 - Digit(t[0])) * 600) as real <= dy < ((4 - Digit(t[0])) * 600 + 600) as real
    case L500 =>
      |t| == 2 && IsDigit(t[0]) && IsDigit(t[1]) &&
      (Digit(t[1]) * 400) as real <= dx < (Digit(t[1]) * 400 + 400) as real &&
      ((9 - Digit(t[0])) * 300) as real <= dy < ((9 - Digit(t[0])) * 300 + 300) as real
  }

  /** A point in the cell of suffix `t` leads back to `t`. */
  lemma SuffixRecovered(l: FrameLevel, t: string, dx: real, dy: real)
    requires 0.0 <= dx < 4000.0 && 0.0 <= dy < 3000.0
    requires InSuffixCell(l, t, dx, dy)
    ensures SuffixAt(l, dx, dy) == t
  {
    match l
    case L50000 =>
    case L5000 =>
    case L2500 => Quadrant2500Recovered(t[0], dx, dy);
    case L1000 => Cell1000Recovered(t[0], t[1], dx, dy);
    case L500 => Cell500Recovered(t[0], t[1], dx, dy);
  }

  lemma Quadrant2500Recovered(n: char, dx: real, dy: real)
    requires 0.0 <= dx < 4000.0 && 0.0 <= dy < 3000.0 && '1' <= n <= '4'
    requires InSuffixCell(L2500, [n], dx, dy)
    ensures SuffixAt(L2500, dx, dy) == [n]
  {
    DigitCharOfDigit(n);
  }

  lemma Cell1000Recovered(r: char, q: char, dx: real, dy: real)
    requires 0.0 <= dx < 4000.0 && 0.0 <= dy < 3000.0
    requires InSuffixCell(L1000, [r, q], dx, dy)
    ensures SuffixAt(L1000, dx, dy) == [r, q]
  {
    TimesUnique(dx, 800.0, q as int - 'A' as int);
    TimesUnique(dy, 600.0, 4 - Digit(r));
    DigitCharOfDigit(r);
  }

  lemma Cell500Recovered(r: char, q: char, dx: real, dy: real)
    requires 0.0 <= dx < 4000.0 && 0.0 <= dy < 3000.0
    requires InSuffixCell(L500, [r, q], dx, dy)
    ensures SuffixAt(L500, dx, dy) == [r, q]
  {
    TimesUnique(dx, 400.0, Digit(q));
    TimesUnique(dy, 300.0, 9 - Digit(r));
    DigitCharOfDigit(r);
    DigitCharOfDigit(q);
  }

  /** A point of an accepted frame's extent leads back to the frame's code. */
  lemma CodeRecovered(f: BaseMapFrame, x: real, y: real)
    requires TryFrom(f.code) == Ok(f) && f.Extent().Contains(x, y)
    ensures FrameCodeAt(FrameSystem(f), f.Level(), x + 160000.0, y + 300000.0) == f.code
  {
    var c := f.code;
    if f.Level50000? {
      HeadRecovered(c, x + 160000.0, y + 300000.0);
      assert c == c[..4];
    } else {
      SuffixCellOfPoint(f, x, y);
      SuffixCodeRecovered(f.Level(), c, x + 160000.0, y + 300000.0);
      assert FrameSystem(f) == Num2(c[..2]);
    }
  }

  /** Where a point of a frame below level 50000 lies inside the frame's
      level-5000 frame. */
  predicate InFrame5000(l: FrameLevel, c: string, x: real, y: real)
    requires Head5000Ok(c)
  {
    var p := LeftTop5000(c);
    p.0 as real <= x < (p.0 + 4000) as real && (p.1 - 3000) as real <= y < p.1 as real &&
    InSuffixCell(l, c[6..], x - p.0 as real, y - (p.1 - 3000) as real)
  }

  lemma SuffixCellOfPoint(f: BaseMapFrame, x: real, y: real)
    requires TryFrom(f.code) == Ok(f) && !f.Level50000? && f.Extent().Contains(x, y)
    ensures InFrame5000(f.Level(), f.code, x, y)
  {
    match f
    case Level5000(c) => assert c[6..] == [];
    case Level2500(c) => Cell2500OfPoint(c, x, y);
    case Level1000(c) => Cell1000OfPoint(c, x, y);
    case Level500(c) => Cell500OfPoint(c, x, y);
  }

  lemma Cell2500OfPoint(c: string, x: real, y: real)
    requires Matches(L2500, c) && Level2500(c).Extent().Contains(x, y)
    ensures InFrame5000(L2500, c, x, y)
  {
    assert c[6..] == [c[6]];
  }

  lemma Cell1000OfPoint(c: string, x: real, y: real)
    requires Matches(L1000, c) && Level1000(c).Extent().Contains(x, y)
    ensures InFrame5000(L1000, c, x, y)
  {
    assert c[6..] == [c[6], c[7]];
  }

  lemma Cell500OfPoint(c: string, x: real, y: real)
    requires Matches(L500, c) && Level500(c).Extent().Contains(x, y)
    ensures InFrame5000(L500, c, x, y)
  {
    assert c[6..] == [c[6], c[7]];
  }

  /** The same below level 50000, from where the point lies inside the
      level-5000 frame. */
  lemma SuffixCodeRecovered(l: FrameLevel, c: string, dx: real, dy: real)
    requires Matches(l, c) && !l.L50000?
    requires 0.0 <= dx < 320000.0 && 0.0 <= dy < 600000.0
    requires var p := LeftTop5000(c);
      (p.0 + 160000) as real <= dx < (p.0 + 164000) as real &&
      (p.1 + 297000) as real <= dy < (p.1 + 300000) as real &&
      InSuffixCell(l, c[6..], dx - (p.0 + 160000) as real, dy - (p.1 + 297000) as real)
    ensures FrameCodeAt(Num2(c[..2]), l, dx, dy) == c
  {
    HeadRecovered(c, dx, dy);
    var dx1, dy1 := Rem(dx, 40000.0), Rem(dy, 30000.0);
    Suffix5000Recovered(c[4], c[5], dx1, dy1);
    var dx2, dy2 := Rem(dx1, 4000.0), Rem(dy1, 3000.0);
    SuffixRecovered(l, c[6..], dx2, dy2);
    assert c == c[..4] + [c[4], c[5]] + c[6..];
  }

  /** Every point of an accepted frame's extent leads back to that frame:
      `from_level_xy` with the frame's system and level returns it. */
  lemma FromLevelXyRecovers(f: BaseMapFrame, x: real, y: real)
    requires TryFrom(f.code) == Ok(f) && f.Extent().Contains(x, y)
    ensures FromLevelXy(FrameSystem(f), f.Level(), x, y) == Ok(f)
  {
    CodeRecovered(f, x, y);
  }

  /** Only one frame of a given system and level holds a point. */
  lemma FrameAtPointUnique(f: BaseMapFrame, g: BaseMapFrame, x: real, y: real)
    requires TryFrom(f.code) == Ok(f) && f.Extent().Contains(x, y)
    requires TryFrom(g.code) == Ok(g) && g.Extent().Contains(x, y)
    requires f.Level() == g.Level() && f.code[..2] == g.code[..2]
    ensures f == g
  {
    FromLevelXyRecovers(f, x, y);
    FromLevelXyRecovers(g, x, y);
  }

  /** A system number of 20 or more is written with a first digit above '1'
      or with three digits, so no pattern accepts the code built with it. */
  lemma SystemOutOfPattern(system: nat, l: FrameLevel, dx: real, dy: real)
    requires 20 <= system < 256 && 0.0 <= dx < 320000.0 && 0.0 <= dy < 600000.0
    ensures TryFrom(FrameCodeAt(system, l, dx, dy)) == Err(InvalidFrameCode)
  {
    var c := FrameCodeAt(system, l, dx, dy);
    var f := SystemField(system);
    assert c[..|f|] == f;
    if system < 100 {
      assert c[0] == DigitChar(system / 10);
    } else {
      assert c[2] == f[2];
    }
  }

  /** In range, a system of 20 or more makes `from_level_xy` fail with
      `InvalidFrameCode` at every level. */
  lemma FromLevelXyRejectsSystem(system: nat, l: FrameLevel, x: real, y: real)
    requires 20 <= system < 256 && -160000.0 <= x < 160000.0 && -300000.0 <= y < 300000.0
    ensures FromLevelXy(system, l, x, y) == Err(InvalidFrameCode)
  {
    SystemOutOfPattern(system, l, x + 160000.0, y + 300000.0);
  }

  /** As written, the same call panics at levels 2500, 1000 and 500 (the
      `unwrap` of the last `try_from`) but returns the error at levels 50000
      and 5000. */
  lemma AsWrittenPanicsOnSystem(system: nat, l: FrameLevel, x: real, y: real)
    requires 20 <= system < 256 && -160000.0 <= x < 160000.0 && -300000.0 <= y < 300000.0
    ensures l.L50000? || l.L5000? ==> FromLevelXyAsWritten(system, l, x, y) == Err(InvalidFrameCode)
    ensures !(l.L50000? || l.L5000?) ==> FromLevelXyAsWritten(system, l, x, y) == Panic
  {
    SystemOutOfPattern(system, l, x + 160000.0, y + 300000.0);
  }
}
