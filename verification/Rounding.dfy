// Real arithmetic the platform shares: maximum, minimum, and decimal rounding,
// half away from zero.
module Rounding {

  function RMax(x: real, y: real): real
  {
    if x >= y then x else y
  }

  function RMin(x: real, y: real): real
  {
    if x <= y then x else y
  }

  function RoundHalfAway(x: real): int
  {
    if x >= 0.0 then (x + 0.5).Floor else -((-x + 0.5).Floor)
  }

  function Round1(v: real): real
  {
    RoundHalfAway(v * 10.0) as real / 10.0
  }

  function Round2(v: real): real
  {
    RoundHalfAway(v * 100.0) as real / 100.0
  }

  function Round3(v: real): real
  {
    RoundHalfAway(v * 1000.0) as real / 1000.0
  }

  lemma RoundMonotone(x: real, y: real)
    requires x <= y
    ensures RoundHalfAway(x) <= RoundHalfAway(y)
  {
  }

  lemma RoundNear(x: real)
    ensures -0.5 <= RoundHalfAway(x) as real - x <= 0.5
  {
  }

  /** The nearest integer is the only integer closer than one half. */
  lemma RoundUnique(x: real, n: int)
    requires -0.5 < n as real - x < 0.5
    ensures RoundHalfAway(x) == n
  {
  }

  /** Comparison against a grid point survives rounding, in both directions. */
  lemma RoundAgainst(x: real, n: int)
    ensures x >= n as real ==> RoundHalfAway(x) >= n
    ensures x <= n as real ==> RoundHalfAway(x) <= n
    ensures x > 0.0 && n > 0 ==> (RoundHalfAway(x) >= n <==> x >= n as real - 0.5)
    ensures x >= 0.0 && n >= 0 ==> (RoundHalfAway(x) > n <==> x >= n as real + 0.5)
  {
  }

  lemma Round1Monotone(x: real, y: real)
    requires x <= y
    ensures Round1(x) <= Round1(y)
  {
    RoundMonotone(x * 10.0, y * 10.0);
  }

  lemma Round1Near(x: real)
    ensures -0.05 <= Round1(x) - x <= 0.05
  {
    RoundNear(x * 10.0);
  }

  /** Bounds that are themselves tenths survive rounding. */
  lemma Round1Within(x: real, lo: int, hi: int)
    requires lo as real / 10.0 <= x <= hi as real / 10.0
    ensures lo as real / 10.0 <= Round1(x) <= hi as real / 10.0
  {
    RoundAgainst(x * 10.0, lo);
    RoundAgainst(x * 10.0, hi);
  }

  lemma Round2Within(x: real, lo: int, hi: int)
    requires lo as real / 100.0 <= x <= hi as real / 100.0
    ensures lo as real / 100.0 <= Round2(x) <= hi as real / 100.0
  {
    RoundAgainst(x * 100.0, lo);
    RoundAgainst(x * 100.0, hi);
  }

  /** A number with two decimals at most. */
  predicate Hundredths(x: real)
  {
    (x * 100.0).Floor as real == x * 100.0
  }

  /** A column of two decimals shows the reading: to the nearest hundredth, and as it is when it has no more decimals. */
  predicate Shows(column: real, reading: real)
  {
    -0.005 <= column - reading <= 0.005 && (Hundredths(reading) ==> column == reading)
  }

  lemma Round2Shows(x: real)
    ensures Shows(Round2(x), x)
  {
    RoundNear(x * 100.0);
    if Hundredths(x) {
      RoundUnique(x * 100.0, (x * 100.0).Floor);
    }
  }

  /** A tenth has no more than two decimals. */
  lemma TenthsShow(v: real)
    ensures Hundredths(Round1(v))
  {
    var k := RoundHalfAway(v * 10.0);
    assert Round1(v) * 100.0 == (10 * k) as real;
  }
}
