/** Shared vocabulary of the mesh model: an Option type usable with `:-`,
    decimal digits, two-digit zero-padded formatting, compass directions
    and the answer of an adjacency test. */
module MeshBasics {

  /** Failure-compatible Option: `None` stands for the crate's
      `Err(GSJPError::InvalidMeshCode)` / `Err(OutOfRange)` results. */
  datatype Option<T> = None | Some(value: T) {
    predicate IsFailure() { None? }
    function PropagateFailure<U>(): Option<U> requires None? { None }
    function Extract(): T requires Some? { value }
  }

  /** The outcome of a `validate_mesh<k>_code` call: `Ok(())` or
      `Err(GSJPError::InvalidMeshCode)`. */
  datatype Verdict = Accepted | InvalidMeshCode

  /** A move direction for the `north_mesh`/`east_mesh`/`south_mesh`/`west_mesh` family. */
  datatype Dir = N | E | S | W

  /** The direction back: north and south, east and west are each other's
      opposites. */
  function Opposite(d: Dir): (o: Dir)
    ensures o != d
  {
    match d
    case N => S
    case E => W
    case S => N
    case W => E
  }

  /** Turning back twice faces the original direction. */
  lemma OppositeInvolution(d: Dir)
    ensures Opposite(Opposite(d)) == d
  {
  }

  /** The answer of an adjacency test, `NeighborDirection`: the side of the
      first cell on which the second one lies; its `None` variant is
      `NotJoining`. */
  datatype Joining = NotJoining | Joins(side: Dir)

  predicate IsDigit(ch: char) { '0' <= ch <= '9' }

  /** `char::to_digit(10)` on a decimal digit. */
  function Digit(ch: char): (n: nat)
    requires IsDigit(ch)
    ensures n < 10
  {
    ch as int - '0' as int
  }

  /** The decimal digit character for `n`, as `format!("{}", n)` writes a one-digit number. */
  function DigitChar(n: nat): (ch: char)
    requires n < 10
    ensures IsDigit(ch) && Digit(ch) == n
  {
    (n + '0' as int) as char
  }

  lemma DigitCharOfDigit(ch: char)
    requires IsDigit(ch)
    ensures DigitChar(Digit(ch)) == ch
  {
  }

  predicate IsDigitPair(s: string) { |s| == 2 && IsDigit(s[0]) && IsDigit(s[1]) }

  /** The number written by the two decimal digits `hi` and `lo`. */
  function TwoDigits(hi: char, lo: char): (n: nat)
    requires IsDigit(hi) && IsDigit(lo)
    ensures n < 100
  {
    10 * Digit(hi) + Digit(lo)
  }

  /** `s.parse::<u8>()` on a two-digit string. */
  function Num2(s: string): (n: nat)
    requires IsDigitPair(s)
    ensures n < 100
  {
    TwoDigits(s[0], s[1])
  }

  /** `format!("{:02}", n)` for `n < 100`. */
  function Pad2(n: nat): (s: string)
    requires n < 100
    ensures IsDigitPair(s) && Num2(s) == n
  {
    [DigitChar(n / 10), DigitChar(n % 10)]
  }

  /** Formatting and parsing two-digit fields are inverse to each other. */
  lemma {:induction false} Pad2OfNum2(s: string)
    requires IsDigitPair(s)
    ensures Pad2(Num2(s)) == s
  {
    var n := Num2(s);
    assert n / 10 == Digit(s[0]) && n % 10 == Digit(s[1]);
    DigitCharOfDigit(s[0]);
    DigitCharOfDigit(s[1]);
  }

  /** `format!("{:02}", n)` for any `u8` value: three digits from 100 on. */
  function PadU8(n: nat): (s: string)
    requires n < 256
    ensures n < 100 ==> s == Pad2(n)
    ensures n >= 100 ==> |s| == 3 && s[0] == DigitChar(n / 100) && s[1..] == Pad2(n % 100)
  {
    if n < 100 then Pad2(n) else [DigitChar(n / 100)] + Pad2(n % 100)
  }
}
