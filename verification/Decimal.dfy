// Decimal printing and reading of integers and fixed-point numbers, as the CSV
// writer and reader use them.
module Decimal {
  import opened Wrappers
  import opened Text

  function DigitChar(d: nat): char
    requires d < 10
  {
    ('0' as int + d) as char
  }

  predicate IsDigit(c: char)
  {
    '0' <= c <= '9'
  }

  predicate AllDigits(s: string)
  {
    forall i :: 0 <= i < |s| ==> IsDigit(s[i])
  }

  /** Base ten, without leading zeros. */
  function Digits(n: nat): (s: string)
    ensures s != "" && AllDigits(s)
  {
    if n < 10 then [DigitChar(n)] else Digits(n / 10) + [DigitChar(n % 10)]
  }

  function ReadDigits(s: string): nat
    requires AllDigits(s)
  {
    if s == "" then 0 else 10 * ReadDigits(s[..|s| - 1]) + (s[|s| - 1] as int - '0' as int)
  }

  lemma ReadAppend(s: string, d: nat)
    requires AllDigits(s) && d < 10
    ensures AllDigits(s + [DigitChar(d)]) && ReadDigits(s + [DigitChar(d)]) == 10 * ReadDigits(s) + d
  {
    assert (s + [DigitChar(d)])[..|s|] == s;
  }

  lemma {:induction false} DigitsRead(n: nat)
    ensures ReadDigits(Digits(n)) == n
  {
    if n >= 10 {
      DigitsRead(n / 10);
      ReadAppend(Digits(n / 10), n % 10);
    } else {
      ReadAppend("", n);
      assert "" + [DigitChar(n)] == Digits(n);
    }
  }

  /** The number of digits grows with the number. */
  lemma {:induction false} DigitsLength(n: nat)
    ensures n < 10 ==> |Digits(n)| == 1
    ensures 10 <= n < 100 ==> |Digits(n)| == 2
    ensures 100 <= n < 1000 ==> |Digits(n)| == 3
    ensures n >= 1000 ==> |Digits(n)| >= 4
  {
    if n >= 10 {
      DigitsLength(n / 10);
    }
  }

  // ---- integers ----

  const MIN_INT: int := -0x8000_0000_0000_0000
  const MAX_INT: int := 0x7fff_ffff_ffff_ffff

  predicate InMachineInt(n: int)
  {
    MIN_INT <= n <= MAX_INT
  }

  function PrintInt(n: int): string
  {
    if n < 0 then "-" + Digits(-n) else Digits(n)
  }

  predicate Signed(s: string)
  {
    s != "" && (s[0] == '-' || s[0] == '+')
  }

  function Unsigned(s: string): string
  {
    if Signed(s) then s[1..] else s
  }

  predicate Negative(s: string)
  {
    s != "" && s[0] == '-'
  }

  /** An optional sign and decimal digits, within the machine's range. */
  function ParseInt(s: string): Option<int>
  {
    var body := Unsigned(s);
    if body == "" || !AllDigits(body) then None
    else
      var n: int := if Negative(s) then -(ReadDigits(body) as int) else ReadDigits(body);
      if InMachineInt(n) then Some(n) else None
  }

  lemma UnsignedDigits(s: string)
    requires s != "" && AllDigits(s)
    ensures !Signed(s) && !Negative(s) && Unsigned(s) == s
    ensures Negative("-" + s) && Unsigned("-" + s) == s
  {
    assert IsDigit(s[0]);
  }

  lemma IntRoundTrip(n: int)
    ensures ParseInt(PrintInt(n)) == if InMachineInt(n) then Some(n) else None
  {
    var m := if n < 0 then -n else n;
    DigitsRead(m);
    UnsignedDigits(Digits(m));
  }

  // ---- fixed-point numbers ----

  function Pow10(p: nat): nat
    ensures Pow10(p) > 0
  {
    if p == 0 then 1 else 10 * Pow10(p - 1)
  }

  /** What is left of the p-th decimal. */
  function Shift(n: nat, p: nat): nat
  {
    if p == 0 then n else Shift(n / 10, p - 1)
  }

  /** The last `p` decimals. */
  function Fraction(n: nat, p: nat): (s: string)
    ensures |s| == p && AllDigits(s)
  {
    if p == 0 then "" else Fraction(n / 10, p - 1) + [DigitChar(n % 10)]
  }

  lemma {:induction false} ReadFixed(n: nat, p: nat)
    ensures AllDigits(Digits(Shift(n, p)) + Fraction(n, p))
    ensures ReadDigits(Digits(Shift(n, p)) + Fraction(n, p)) == n
  {
    if p == 0 {
      DigitsRead(n);
      assert Digits(n) + "" == Digits(n);
    } else {
      ReadFixed(n / 10, p - 1);
      var front := Digits(Shift(n / 10, p - 1)) + Fraction(n / 10, p - 1);
      ReadAppend(front, n % 10);
      assert Digits(Shift(n, p)) + Fraction(n, p) == front + [DigitChar(n % 10)];
    }
  }

  /** To the nearest integer, a tie to the even one. */
  function RoundHalfEven(x: real): int
  {
    var n := x.Floor;
    if x - n as real < 0.5 || (x - n as real == 0.5 && n % 2 == 0) then n else n + 1
  }

  function Magnitude(x: real): real
  {
    if x < 0.0 then -x else x
  }

  function ScaleUp(x: real, p: nat): real
  {
    x * Pow10(p) as real
  }

  function ScaleDown(n: int, p: nat): real
  {
    n as real / Pow10(p) as real
  }

  function Scaled(x: real, p: nat): (n: nat)
  {
    RoundHalfEven(Magnitude(ScaleUp(x, p)))
  }

  /** `%.pf`: the sign, the whole part, a point and `p` decimals. */
  function PrintFixed(x: real, p: nat): string
  {
    var body := Digits(Shift(Scaled(x, p), p)) + ['.'] + Fraction(Scaled(x, p), p);
    if x < 0.0 then "-" + body else body
  }

  /** An optional sign, digits and at most one point; no exponent and no special value. */
  function ParseReal(s: string): Option<real>
  {
    var parts := Split(Unsigned(s), '.');
    if |parts| > 2 then None
    else
      var fraction := if |parts| == 2 then parts[1] else "";
      var digits := parts[0] + fraction;
      if digits == "" || !AllDigits(digits) then None
      else
        var v := ScaleDown(ReadDigits(digits), |fraction|);
        Some(if Negative(s) then -v else v)
  }

  /** The number `PrintFixed` shows. */
  function OnGrid(x: real, p: nat): real
  {
    var v := ScaleDown(Scaled(x, p), p);
    if x < 0.0 then -v else v
  }

  lemma PointSplits(whole: string, fraction: string)
    requires AllDigits(whole) && AllDigits(fraction)
    ensures Split(whole + ['.'] + fraction, '.') == [whole, fraction]
  {
    SplitFirst(whole, fraction, '.');
    SplitWhole(fraction, '.');
  }

  lemma SignedBody(whole: string, rest: string)
    requires whole != "" && AllDigits(whole)
    ensures Unsigned(whole + rest) == whole + rest && !Negative(whole + rest)
    ensures Unsigned("-" + (whole + rest)) == whole + rest && Negative("-" + (whole + rest))
  {
    assert (whole + rest)[0] == whole[0] && IsDigit(whole[0]);
  }

  function Spelled(whole: string, fraction: string, negative: bool): string
  {
    if negative then "-" + (whole + ['.'] + fraction) else whole + ['.'] + fraction
  }

  lemma SpelledReadsBack(whole: string, fraction: string, negative: bool)
    requires whole != "" && AllDigits(whole) && AllDigits(fraction)
    ensures AllDigits(whole + fraction)
    ensures var v := ScaleDown(ReadDigits(whole + fraction), |fraction|);
            ParseReal(Spelled(whole, fraction, negative)) == Some(if negative then -v else v)
  {
    hide ScaleDown, ReadDigits, Split;
    PointSplits(whole, fraction);
    SignedBody(whole, ['.'] + fraction);
    assert whole + (['.'] + fraction) == whole + ['.'] + fraction;
  }

  /** Reading back what was printed gives the number shown. */
  lemma FixedReadsBack(x: real, p: nat)
    ensures ParseReal(PrintFixed(x, p)) == Some(OnGrid(x, p))
  {
    hide ScaleDown, Scaled, ParseReal, ReadDigits, Digits, Shift, Fraction, AllDigits;
    var n := Scaled(x, p);
    ReadFixed(n, p);
    SpelledReadsBack(Digits(Shift(n, p)), Fraction(n, p), x < 0.0);
  }

  /** The number is a multiple of the last decimal. */
  predicate HasDecimals(x: real, p: nat)
  {
    ScaleUp(x, p).Floor as real == ScaleUp(x, p)
  }

  lemma QuotientTimes(n: real, d: real)
    requires d > 0.0
    ensures (n / d) * d == n && -n / d == -(n / d)
  {
  }

  lemma TimesQuotient(x: real, n: real, d: real)
    requires d > 0.0
    ensures (-x) * d == -(x * d)
    ensures x * d == n ==> n / d == x
  {
  }

  lemma ScaleLaws(x: real, n: int, p: nat)
    ensures ScaleUp(ScaleDown(n, p), p) == n as real
    ensures ScaleUp(x, p) == n as real ==> ScaleDown(n, p) == x
    ensures ScaleUp(-x, p) == -ScaleUp(x, p) && ScaleDown(-n, p) == -ScaleDown(n, p)
  {
    var d := Pow10(p) as real;
    hide Pow10;
    QuotientTimes(n as real, d);
    TimesQuotient(x, n as real, d);
  }

  lemma RoundsToItself(n: int)
    ensures RoundHalfEven(n as real) == n
  {
  }

  lemma ScaleUpSign(x: real, p: nat)
    ensures x < 0.0 <==> ScaleUp(x, p) < 0.0
  {
    if x < 0.0 {
      assert -x * Pow10(p) as real > 0.0;
    } else {
      assert x * Pow10(p) as real >= 0.0;
    }
  }

  lemma WholeHasDecimals(x: real, m: int, p: nat)
    requires ScaleUp(x, p) == m as real
    ensures HasDecimals(x, p)
  {
  }

  lemma ShownIsOnGrid(x: real, p: nat)
    ensures HasDecimals(OnGrid(x, p), p)
  {
    hide ScaleUp, ScaleDown, Scaled, Pow10, HasDecimals;
    var n: int := Scaled(x, p);
    var v := ScaleDown(n, p);
    ScaleLaws(v, n, p);
    if x < 0.0 {
      WholeHasDecimals(-v, -n, p);
    } else {
      WholeHasDecimals(v, n, p);
    }
  }

  lemma GridIsShown(x: real, p: nat)
    requires HasDecimals(x, p)
    ensures OnGrid(x, p) == x
  {
    ScaleUpSign(x, p);
    hide ScaleUp, ScaleDown, Pow10, RoundHalfEven;
    var m := ScaleUp(x, p).Floor;
    var n := if x < 0.0 then -m else m;
    assert Magnitude(ScaleUp(x, p)) == n as real;
    RoundsToItself(n);
    ScaleLaws(x, m, p);
  }

  /** Printing and reading back preserves exactly the numbers on the grid. */
  lemma FixedRoundTripExactly(x: real, p: nat)
    ensures ParseReal(PrintFixed(x, p)) == Some(x) <==> HasDecimals(x, p)
  {
    hide *;
    FixedReadsBack(x, p);
    ShownIsOnGrid(x, p);
    if HasDecimals(x, p) {
      GridIsShown(x, p);
    }
  }
}
