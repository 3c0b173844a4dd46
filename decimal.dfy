/**
 * Decimal text of unsigned integers: the scan `strconv.ParseUint(s, 10, 64)`
 * performs, the `strconv.FormatUint(n, 10)` / `fmt.Sprintf("%d", n)` rendering,
 * and the `%f` rendering of a number used in a cache key.
 */
module Decimal {
  import opened Wrappers

  /** The largest value of a Go `uint64`. */
  const MaxUint64: nat := 0xFFFF_FFFF_FFFF_FFFF

  /** `maxUint64/10 + 1`: a value at or above it overflows when multiplied by 10. */
  const Cutoff: nat := MaxUint64 / 10 + 1

  predicate IsDigit(c: char) {
    '0' <= c <= '9'
  }

  function DigitValue(c: char): nat
    requires IsDigit(c)
  {
    c as int - '0' as int
  }

  function DigitChar(d: nat): (c: char)
    requires d < 10
    ensures IsDigit(c) && DigitValue(c) == d
  {
    ('0' as int + d) as char
  }

  predicate AllDigits(s: string) {
    forall i :: 0 <= i < |s| ==> IsDigit(s[i])
  }

  /** The number a string of decimal digits spells; leading zeros are allowed. */
  function Value(s: string): nat
    requires AllDigits(s)
    decreases |s|
  {
    if s == [] then 0 else Value(s[..|s| - 1]) * 10 + DigitValue(s[|s| - 1])
  }

  datatype NumError = ErrSyntax | ErrRange

  /**
   * The loop of `strconv.ParseUint` for base 10 and 64 bits, one byte at a
   * time from the left: a non-digit is a syntax error; an accumulator at or
   * above the cutoff, or a sum above the maximum, is a range error.
   */
  function Scan(s: string, n: nat): Result<nat, NumError>
    decreases |s|
  {
    if s == [] then Ok(n)
    else if !IsDigit(s[0]) then Err(ErrSyntax)
    else if n >= Cutoff then Err(ErrRange)
    else if n * 10 + DigitValue(s[0]) > MaxUint64 then Err(ErrRange)
    else Scan(s[1..], n * 10 + DigitValue(s[0]))
  }

  /** `strconv.ParseUint(s, 10, 64)`: the empty string is a syntax error. */
  function ParseUint(s: string): (r: Result<nat, NumError>)
    ensures r.Ok? <==> s != [] && AllDigits(s) && Value(s) <= MaxUint64
    ensures r.Ok? ==> r.value == Value(s) && r.value <= MaxUint64
    ensures s == [] ==> r == Err(ErrSyntax)
  {
    if s == [] then Err(ErrSyntax)
    else
      ScanCorrect(s, 0);
      assert s[..0] == [] && s[0..] == s;
      Scan(s, 0)
  }

  lemma {:induction false} ValuePrefix(s: string, k: nat)
    requires AllDigits(s) && k <= |s|
    ensures AllDigits(s[..k]) && Value(s[..k]) <= Value(s)
    decreases |s| - k
  {
    if k < |s| {
      ValuePrefix(s, k + 1);
      var p := s[..k + 1];
      assert p[..|p| - 1] == s[..k];
    } else {
      assert s[..k] == s;
    }
  }

  /**
   * The scan accepts exactly the digit strings whose value fits in 64 bits,
   * and then returns that value. Stated for the suffix left after the first
   * k bytes have been consumed into the accumulator.
   */
  lemma {:induction false} ScanCorrect(s: string, k: nat)
    requires k <= |s| && AllDigits(s[..k]) && Value(s[..k]) <= MaxUint64
    ensures Scan(s[k..], Value(s[..k])).Ok? <==> AllDigits(s) && Value(s) <= MaxUint64
    ensures Scan(s[k..], Value(s[..k])).Ok? ==> Scan(s[k..], Value(s[..k])).value == Value(s)
    decreases |s| - k
  {
    if k == |s| {
      assert s[..k] == s;
    } else if !IsDigit(s[k]) {
      assert !IsDigit(s[k..][0]);
    } else {
      var n := Value(s[..k]);
      var p := s[..k + 1];
      assert p[..|p| - 1] == s[..k];
      assert AllDigits(p);
      assert Value(p) == n * 10 + DigitValue(s[k]);
      assert s[k..][0] == s[k] && s[k..][1..] == s[k + 1..];
      if n >= Cutoff || n * 10 + DigitValue(s[k]) > MaxUint64 {
        if AllDigits(s) {
          ValuePrefix(s, k + 1);
        }
      } else {
        ScanCorrect(s, k + 1);
      }
    }
  }

  /** `strconv.FormatUint(n, 10)`, also what `fmt.Sprintf("%d", n)` prints. */
  function FormatUint(n: nat): (s: string)
    decreases n
  {
    if n < 10 then [DigitChar(n)] else FormatUint(n / 10) + [DigitChar(n % 10)]
  }

  /** The rendering is a non-empty digit string without a leading zero that spells n. */
  lemma {:induction false} FormatUintSpells(n: nat)
    ensures var s := FormatUint(n);
      s != [] && AllDigits(s) && Value(s) == n && (s[0] == '0' ==> n == 0)
    decreases n
  {
    var s := FormatUint(n);
    if n >= 10 {
      FormatUintSpells(n / 10);
      var t := FormatUint(n / 10);
      assert s == t + [DigitChar(n % 10)];
      assert s[..|s| - 1] == t;
      assert s[0] == t[0];
    }
  }

  /** Parsing the rendering of any 64-bit value gives the value back. */
  lemma ParseFormatRoundTrip(n: nat)
    requires n <= MaxUint64
    ensures ParseUint(FormatUint(n)) == Ok(n)
  {
    FormatUintSpells(n);
  }

  /** Two different numbers are never rendered alike. */
  lemma FormatUintInjective(m: nat, n: nat)
    requires FormatUint(m) == FormatUint(n)
    ensures m == n
  {
    FormatUintSpells(m);
    FormatUintSpells(n);
  }

  /** `%d` of a (possibly negative) integer. */
  function FormatInt(i: int): string {
    if i < 0 then "-" + FormatUint(-i) else FormatUint(i)
  }

  /** Round to the nearest integer, ties to the even one, as `%f` does. */
  function RoundHalfEven(x: real): (m: nat)
    requires x >= 0.0
    ensures x - 0.5 <= m as real <= x + 0.5
  {
    var f := x.Floor;
    var frac := x - f as real;
    if frac < 0.5 then f
    else if frac > 0.5 then f + 1
    else if f % 2 == 0 then f
    else f + 1
  }

  /** `fmt.Sprintf("%f", x)`: six digits after the point. */
  function FormatFixed(x: real): string {
    var a := if x < 0.0 then -x else x;
    var m := RoundHalfEven(a * 1000000.0);
    var frac := FormatUint(m % 1000000);
    (if x < 0.0 then "-" else "") + FormatUint(m / 1000000) + "." + seq(if |frac| < 6 then 6 - |frac| else 0, _ => '0') + frac
  }
}
