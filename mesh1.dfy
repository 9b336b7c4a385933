/** The primary area partition (level 1): a four-character code made of a
    two-digit latitude field (`floor(latitude * 1.5)`) and a two-digit
    longitude field (`floor(longitude - 100)`).  The national domain is given
    by the smallest and largest legal value of each field. */
module Mesh1 {
  import opened MeshBasics

  /** Smallest and largest legal latitude and longitude field of a level-1 code. */
  datatype Bounds = Bounds(latMin: nat, latMax: nat, lonMin: nat, lonMax: nat) {
    /** Both fields are written with exactly two digits, and one step beyond
        the largest field still fits in two digits. */
    predicate Valid() {
      10 <= latMin <= latMax <= 98 && 10 <= lonMin <= lonMax <= 98
    }
  }

  /** Bounds of the root crate: latitude 20°..46°, longitude 122°..155°. */
  const RootCrateBounds: Bounds := Bounds(30, 68, 22, 54)

  /** Bounds of the gsjp crate, as its corner cells 714977, 304907, 301800 and 711870 pin them. */
  const GsjpBounds: Bounds := Bounds(30, 71, 18, 49)

  predicate AllDigits(code: string) {
    forall i | 0 <= i < |code| :: IsDigit(code[i])
  }

  /** The first four characters are two two-digit fields within their
      bounds; a longer code starts with its level-1 code. */
  predicate FieldsOk(b: Bounds, code: string)
    requires 4 <= |code|
  {
    && IsDigit(code[0]) && IsDigit(code[1]) && IsDigit(code[2]) && IsDigit(code[3])
    && b.latMin <= TwoDigits(code[0], code[1]) <= b.latMax
    && b.lonMin <= TwoDigits(code[2], code[3]) <= b.lonMax
  }

  /** Level-1 validity with the fields read as numbers: four digits, each
      two-digit field within its bounds. */
  predicate ValidMesh1Code(b: Bounds, code: string) {
    |code| == 4 && FieldsOk(b, code)
  }

  /** The latitude field, `code[0..2].parse::<u8>()`. */
  function LatField(b: Bounds, code: string): (f: nat)
    requires 4 <= |code| && FieldsOk(b, code)
    ensures b.latMin <= f <= b.latMax
  {
    TwoDigits(code[0], code[1])
  }

  /** The longitude field, `code[2..4].parse::<u8>()`. */
  function LonField(b: Bounds, code: string): (f: nat)
    requires 4 <= |code| && FieldsOk(b, code)
    ensures b.lonMin <= f <= b.lonMax
  {
    TwoDigits(code[2], code[3])
  }

  /** A valid level-1 code is determined by its two fields. */
  lemma {:induction false} FieldsDetermineCode(b: Bounds, a: string, c: string)
    requires ValidMesh1Code(b, a) && ValidMesh1Code(b, c)
    requires LatField(b, a) == LatField(b, c) && LonField(b, a) == LonField(b, c)
    ensures a == c
  {
    assert Digit(a[0]) == Digit(c[0]) && Digit(a[1]) == Digit(c[1]);
    assert Digit(a[2]) == Digit(c[2]) && Digit(a[3]) == Digit(c[3]);
    DigitCharOfDigit(a[0]); DigitCharOfDigit(c[0]);
    DigitCharOfDigit(a[1]); DigitCharOfDigit(c[1]);
    DigitCharOfDigit(a[2]); DigitCharOfDigit(c[2]);
    DigitCharOfDigit(a[3]); DigitCharOfDigit(c[3]);
  }

  /** The level-1 code with the given fields, `format!("{:02}{:02}", lat, lon)`. */
  function CodeOfFields(lat: nat, lon: nat): (code: string)
    requires lat < 100 && lon < 100
    ensures |code| == 4 && IsDigit(code[0]) && IsDigit(code[1]) && IsDigit(code[2]) && IsDigit(code[3])
    ensures TwoDigits(code[0], code[1]) == lat && TwoDigits(code[2], code[3]) == lon
  {
    Pad2(lat) + Pad2(lon)
  }

  /** `Mesh1::new`: the code is kept exactly when it validates. */
  function NewMesh1(b: Bounds, code: string): (r: Option<string>)
    ensures r.Some? <==> ValidMesh1Code(b, code)
    ensures r.Some? ==> r.value == code
  {
    if ValidMesh1Code(b, code) then Some(code) else None
  }

  /** The field a level-1 move changes lies on its bound: the move leaves the domain. */
  predicate AtBound1(b: Bounds, code: string, d: Dir)
    requires ValidMesh1Code(b, code)
  {
    match d
    case N => LatField(b, code) == b.latMax
    case E => LonField(b, code) == b.lonMax
    case S => LatField(b, code) == b.latMin
    case W => LonField(b, code) == b.lonMin
  }

  /** `north_mesh`/`east_mesh`/`south_mesh`/`west_mesh` of `Mesh1`: add or
      subtract one on one field, format it with two digits, keep the other
      field and re-validate. */
  function Step1(b: Bounds, code: string, d: Dir): (r: Option<string>)
    requires b.Valid() && ValidMesh1Code(b, code)
    ensures r.Some? ==> ValidMesh1Code(b, r.value)
    ensures r.Some? ==> LatField(b, r.value) == LatField(b, code) + (if d == N then 1 else if d == S then -1 else 0)
    ensures r.Some? ==> LonField(b, r.value) == LonField(b, code) + (if d == E then 1 else if d == W then -1 else 0)
    ensures r.None? <==> AtBound1(b, code, d)
  {
    var lat := LatField(b, code);
    var lon := LonField(b, code);
    var next := match d
      case N => CodeOfFields(lat + 1, lon)
      case E => CodeOfFields(lat, lon + 1)
      case S => CodeOfFields(lat - 1, lon)
      case W => CodeOfFields(lat, lon - 1);
    NewMesh1(b, next)
  }

  // ---------------------------------------------------------------------
  // The validator as the source writes it.

  /** Rust's `<` on `&str`: lexicographic, a proper prefix is smaller. */
  predicate StrLess(a: string, c: string)
    decreases |a|
  {
    if |c| == 0 then false
    else if |a| == 0 then true
    else if a[0] != c[0] then a[0] < c[0]
    else StrLess(a[1..], c[1..])
  }

  /** `validate_mesh1_code` as written: the length is checked, then each
      two-character field is compared AS A STRING with the decimal string
      of its bounds; nothing checks that the fields are digits. */
  predicate ValidMesh1CodeAsWritten(b: Bounds, code: string)
    requires b.Valid()
  {
    && |code| == 4
    && !(StrLess(code[0..2], Pad2(b.latMin)) || StrLess(Pad2(b.latMax), code[0..2]))
    && !(StrLess(code[2..4], Pad2(b.lonMin)) || StrLess(Pad2(b.lonMax), code[2..4]))
  }

  /** On two-digit strings the string order is the numeric order. */
  lemma {:induction false} StrLessOnDigitPairs(a: string, c: string)
    requires IsDigitPair(a) && IsDigitPair(c)
    ensures StrLess(a, c) <==> Num2(a) < Num2(c)
  {
    if a[0] == c[0] {
      assert StrLess(a, c) == StrLess(a[1..], c[1..]);
      assert StrLess(a[1..], c[1..]) == (a[1] < c[1]) by {
        if a[1] == c[1] {
          assert StrLess(a[1..][1..], c[1..][1..]) == false;
        }
      }
    }
  }

  /** The numeric validator accepts exactly the codes the written validator
      accepts whose four characters are digits. */
  lemma {:induction false} ValidMesh1CodeIsAsWrittenOnDigits(b: Bounds, code: string)
    requires b.Valid()
    ensures ValidMesh1Code(b, code) <==> ValidMesh1CodeAsWritten(b, code) && AllDigits(code)
  {
    if |code| == 4 && AllDigits(code) {
      assert IsDigitPair(code[0..2]) && IsDigitPair(code[2..4]);
      StrLessOnDigitPairs(code[0..2], Pad2(b.latMin));
      StrLessOnDigitPairs(Pad2(b.latMax), code[0..2]);
      StrLessOnDigitPairs(code[2..4], Pad2(b.lonMin));
      StrLessOnDigitPairs(Pad2(b.lonMax), code[2..4]);
    }
    if |code| == 4 {
      assert code[0..2][0] == code[0] && code[0..2][1] == code[1];
      assert code[2..4][0] == code[2] && code[2..4][1] == code[3];
    }
  }

  /** The written validator accepts "3:22": its latitude field "3:" is not a
      number, so the later `parse` in `south()` or `north_mesh()` fails. */
  lemma AsWrittenAcceptsNonDigitField()
    ensures ValidMesh1CodeAsWritten(RootCrateBounds, "3:22")
    ensures !IsDigit("3:22"[1])
    ensures !ValidMesh1Code(RootCrateBounds, "3:22")
  {
    var lat := "3:22"[0..2];
    assert lat == ['3', ':'];
    assert Pad2(30) == ['3', '0'] && Pad2(68) == ['6', '8'];
    assert !StrLess(lat, Pad2(30)) by {
      assert StrLess(lat, Pad2(30)) == StrLess(lat[1..], Pad2(30)[1..]);
    }
    assert !StrLess(Pad2(68), lat);
    var lon := "3:22"[2..4];
    assert lon == ['2', '2'];
    StrLessOnDigitPairs(lon, Pad2(22));
    StrLessOnDigitPairs(Pad2(54), lon);
  }
}
