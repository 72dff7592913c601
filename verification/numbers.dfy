/**
 * Go's fixed-width integer behaviour and the decimal conversions of `strconv`
 * that the service uses, stated over unbounded integers.
 */
module Numbers {

  import opened Results

  const TwoTo32: int := 0x1_0000_0000
  const TwoTo64: int := 0x1_0000_0000_0000_0000
  const MinInt32: int := -0x8000_0000
  const MaxInt32: int := 0x7FFF_FFFF
  const MinInt64: int := -0x8000_0000_0000_0000
  const MaxInt64: int := 0x7FFF_FFFF_FFFF_FFFF
  const MaxUint64: int := 0xFFFF_FFFF_FFFF_FFFF

  predicate IsInt32(x: int) {
    MinInt32 <= x <= MaxInt32
  }

  predicate IsInt64(x: int) {
    MinInt64 <= x <= MaxInt64
  }

  /** Go's two's-complement wrap-around of a result into `int64` (Go's `int` on 64-bit targets). */
  function Wrap64(x: int): (r: int)
    ensures IsInt64(r)
    ensures (x - r) % TwoTo64 == 0
    ensures IsInt64(x) ==> r == x
  {
    (x - MinInt64) % TwoTo64 + MinInt64
  }

  /** Go's conversion `int32(x)`: keeps the low 32 bits, read as a signed value. */
  function Wrap32(x: int): (r: int)
    ensures IsInt32(r)
    ensures (x - r) % TwoTo32 == 0
    ensures IsInt32(x) ==> r == x
  {
    (x - MinInt32) % TwoTo32 + MinInt32
  }

  function Abs(x: int): nat {
    if x < 0 then -x else x
  }

  /** Division of magnitudes, where Euclidean and truncating division agree. */
  function NatQuo(x: nat, y: nat): nat
    requires y > 0
  {
    x / y
  }

  /** Go's integer `/`: the quotient truncated toward zero (Dafny's own `/` is Euclidean). */
  function Quo(a: int, b: int): (q: int)
    requires b != 0
    ensures Abs(q) == NatQuo(Abs(a), Abs(b))
    ensures q == 0 || (q < 0 <==> (a < 0) != (b < 0))
  {
    var m: int := NatQuo(Abs(a), Abs(b));
    if (a < 0) == (b < 0) then m else -m
  }

  /** Go's integer `%`: the remainder of `Quo`, carrying the sign of the dividend. */
  function Rem(a: int, b: int): (r: int)
    requires b != 0
    ensures a == b * Quo(a, b) + r
    ensures Abs(r) < Abs(b)
    ensures r == 0 || (r < 0 <==> a < 0)
  {
    QuoRemBounds(a, b);
    a - b * Quo(a, b)
  }

  /** The truncated remainder is smaller than the divisor and follows the sign of the dividend. */
  lemma QuoRemBounds(a: int, b: int)
    requires b != 0
    ensures Abs(a - b * Quo(a, b)) < Abs(b)
    ensures a - b * Quo(a, b) == 0 || (a - b * Quo(a, b) < 0 <==> a < 0)
  {
    var m := NatQuo(Abs(a), Abs(b));
    var k := Abs(a) % Abs(b);
    assert Abs(a) == Abs(b) * m + k;
    var r := a - b * Quo(a, b);
    if a >= 0 && b > 0 {
      assert r == k;
    } else if a >= 0 {
      assert b * Quo(a, b) == (-b) * m;
      assert r == k;
    } else if b > 0 {
      assert b * Quo(a, b) == -(b * m);
      assert r == -k;
    } else {
      assert b * Quo(a, b) == -((-b) * m);
      assert r == -k;
    }
  }

  predicate IsDigit(c: char) {
    '0' <= c <= '9'
  }

  function DigitValue(c: char): nat
    requires IsDigit(c)
  {
    (c as int) - ('0' as int)
  }

  function DigitChar(d: nat): (c: char)
    requires d < 10
    ensures IsDigit(c) && DigitValue(c) == d
  {
    (d + '0' as int) as char
  }

  /** Decimal digits of `n`, most significant first, without leading zeros (Go's `%d` of a non-negative value). */
  function FormatNat(n: nat): (s: string)
    ensures |s| >= 1
    ensures forall i :: 0 <= i < |s| ==> IsDigit(s[i])
    ensures s[0] == '0' ==> n == 0
  {
    if n < 10 then [DigitChar(n)] else FormatNat(n / 10) + [DigitChar(n % 10)]
  }

  /** Go's `%d` / `strconv.FormatInt(n, 10)`. */
  function FormatInt(n: int): string {
    if n < 0 then "-" + FormatNat(-n) else FormatNat(n)
  }

  /** What scanning a run of decimal digits found. */
  datatype Scan = Digits(value: nat) | BadDigit | Overflow

  /**
   * The digit loop of Go's `strconv.ParseUint(s, 10, 64)`, continued from the
   * value `acc`: a non-digit is a syntax error, and a prefix whose value passes
   * 2^64 - 1 stops the scan with a range error before later characters are looked at.
   */
  function ScanDigits(s: string, acc: nat): Scan
    decreases |s|
  {
    if |s| == 0 then Digits(acc)
    else if !IsDigit(s[0]) then BadDigit
    else
      var v := acc * 10 + DigitValue(s[0]);
      if v > MaxUint64 then Overflow else ScanDigits(s[1..], v)
  }

  /** The outcome of Go's `strconv.ParseInt(s, 10, 64)`. */
  datatype Parse = Parsed(value: int) | SyntaxError | RangeError(clamped: int) {

    /** The integer Go returns beside the error: 0 on a syntax error, the clamped bound on a range error. */
    function Value(): int {
      match this
      case Parsed(v) => v
      case SyntaxError => 0
      case RangeError(v) => v
    }
  }

  /** Go's `strconv.ParseInt(s, 10, 64)`: an optional sign, then at least one decimal digit and nothing else. */
  function ParseInt64(s: string): (p: Parse)
    ensures p.Parsed? ==> IsInt64(p.value)
    ensures p.RangeError? ==> p.clamped == MinInt64 || p.clamped == MaxInt64
    ensures |s| == 0 ==> p == SyntaxError
  {
    if |s| == 0 then SyntaxError
    else
      var neg := s[0] == '-';
      var digits := if s[0] == '+' || s[0] == '-' then s[1..] else s;
      if |digits| == 0 then SyntaxError
      else
        match ScanDigits(digits, 0)
        case BadDigit => SyntaxError
        case Overflow => RangeError(if neg then MinInt64 else MaxInt64)
        case Digits(u) =>
          if !neg && u > MaxInt64 then RangeError(MaxInt64)
          else if neg && u > -MinInt64 then RangeError(MinInt64)
          else Parsed(if neg then -(u as int) else u as int)
  }

  /** Go's `strconv.Atoi` on a 64-bit target: the parsed value, or nothing on any error. */
  function Atoi(s: string): (r: Option<int>)
    ensures r.Some? <==> ParseInt64(s).Parsed?
    ensures r.Some? ==> r.value == ParseInt64(s).value
  {
    match ParseInt64(s)
    case Parsed(v) => Some(v)
    case _ => None
  }

  /** Scanning one more digit multiplies the value so far by ten and adds the digit. */
  lemma {:induction false} ScanDigitsSnoc(s: string, acc: nat, d: nat)
    requires d < 10
    ensures ScanDigits(s + [DigitChar(d)], acc) ==
      match ScanDigits(s, acc)
      case Digits(v) => if v * 10 + d > MaxUint64 then Overflow else Digits(v * 10 + d)
      case other => other
    decreases |s|
  {
    if |s| == 0 {
      assert s + [DigitChar(d)] == [DigitChar(d)];
      assert [DigitChar(d)][1..] == "";
    } else {
      assert (s + [DigitChar(d)])[0] == s[0];
      assert (s + [DigitChar(d)])[1..] == s[1..] + [DigitChar(d)];
      if IsDigit(s[0]) {
        var v := acc * 10 + DigitValue(s[0]);
        if v <= MaxUint64 {
          ScanDigitsSnoc(s[1..], v, d);
        }
      }
    }
  }

  /** Scanning the decimal rendering of a 64-bit unsigned value gives the value back. */
  lemma {:induction false} ScanFormatNat(n: nat)
    requires n <= MaxUint64
    ensures ScanDigits(FormatNat(n), 0) == Digits(n)
  {
    if n < 10 {
      assert [DigitChar(n)][1..] == "";
    } else {
      ScanFormatNat(n / 10);
      ScanDigitsSnoc(FormatNat(n / 10), 0, n % 10);
    }
  }

  /** Round trip: `strconv.ParseInt` reads back what `%d` printed, for every int64. */
  lemma ParseFormatInt(n: int)
    requires IsInt64(n)
    ensures ParseInt64(FormatInt(n)) == Parsed(n)
  {
    if n < 0 {
      ScanFormatNat(-n);
      assert ("-" + FormatNat(-n))[1..] == FormatNat(-n);
    } else {
      ScanFormatNat(n);
    }
  }
}
