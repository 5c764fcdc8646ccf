// The analytic functions the physics and the generator call, as parameters that
// obey a few true facts about the exponential, sine, power and logarithm. Nothing
// is said of `overZero`, what dividing a number by zero gives.
module Analysis {

  datatype Analysis = Analysis(
    exp: real -> real,
    ln: real -> real,
    log10: real -> real,
    sin: real -> real,
    sqrt: real -> real,
    pow08: real -> real,
    pow09: real -> real,
    overZero: real -> real,
    pi: real)

  function Sum(x: real, y: real): real
  {
    x + y
  }

  function Product(x: real, y: real): real
  {
    x * y
  }

  function Quotient(x: real, y: real): real
    requires y != 0.0
  {
    x / y
  }

  ghost predicate LawfulExp(exp: real -> real)
  {
    && exp(0.0) == 1.0
    && (forall x, y {:trigger exp(Sum(x, y))} :: exp(Sum(x, y)) == Product(exp(x), exp(y)))
    && (forall x {:trigger exp(x)} :: exp(x) >= 1.0 + x)
  }

  /** The power 0.8 on the non-negative reals; `x^1.6` is the power 0.8 of `x^2`. */
  ghost predicate LawfulPow08(pow08: real -> real)
  {
    && pow08(1.0) == 1.0
    && (forall x, y {:trigger pow08(Product(x, y))} :: 0.0 <= x && 0.0 <= y ==> pow08(Product(x, y)) == Product(pow08(x), pow08(y)))
    && (forall x, y {:trigger pow08(x), pow08(y)} :: 0.0 <= x <= y ==> pow08(x) <= pow08(y))
    && (forall x {:trigger pow08(x)} :: 0.0 <= x ==> 0.0 <= pow08(x) <= 1.0 + 0.8 * (x - 1.0))
  }

  /** Half a turn changes the sign; `pi` is half a turn. */
  ghost predicate LawfulSin(sin: real -> real, pi: real)
  {
    && sin(0.0) == 0.0 && sin(pi / 2.0) == 1.0
    && (forall x {:trigger sin(Sum(x, pi))} :: sin(Sum(x, pi)) == -sin(x))
    && (forall x {:trigger sin(x)} :: -1.0 <= sin(x) <= 1.0)
  }

  ghost predicate Lawful(a: Analysis)
  {
    && LawfulExp(a.exp)
    && LawfulPow08(a.pow08)
    && LawfulSin(a.sin, a.pi)
    && (forall x {:trigger a.sqrt(x)} :: 0.0 <= x ==> 0.0 <= a.sqrt(x) && Product(a.sqrt(x), a.sqrt(x)) == x)
    && (forall x {:trigger a.ln(x)} :: 0.0 < x ==> a.exp(a.ln(x)) == x)
    && a.log10(1.0) == 0.0 && a.log10(1000.0) == 3.0
    && (forall x, y {:trigger a.log10(x), a.log10(y)} :: 0.0 < x <= y ==> a.log10(x) <= a.log10(y))
    && (forall x {:trigger a.pow09(x)} :: 0.0 <= x ==> 0.0 <= a.pow09(x))
  }

  // ---- consequences ----

  lemma ProductLe(a: real, b: real, c: real, d: real)
    requires 0.0 <= a <= b && 0.0 <= c <= d
    ensures 0.0 <= Product(a, c) <= Product(b, d)
  {
    assert (b - a) * c >= 0.0;
    assert b * (d - c) >= 0.0;
  }

  lemma ProductWithin(x: real, xlo: real, xhi: real, y: real, ylo: real, yhi: real)
    requires 0.0 <= xlo <= x <= xhi && 0.0 <= ylo <= y <= yhi
    ensures Product(xlo, ylo) <= Product(x, y) <= Product(xhi, yhi)
  {
    ProductLe(xlo, x, ylo, y);
    ProductLe(x, xhi, y, yhi);
  }

  lemma ProductMonotone(x: real, y: real, z: real)
    requires x <= y && z >= 0.0
    ensures Product(z, x) <= Product(z, y) && Product(x, z) <= Product(y, z)
  {
    assert (y - x) * z >= 0.0;
  }

  lemma ProductSigns(x: real, y: real)
    ensures x >= 0.0 && y >= 0.0 ==> Product(x, y) >= 0.0
    ensures x > 0.0 && y > 0.0 ==> Product(x, y) > 0.0
  {
  }

  lemma ProductSymmetric(x: real, y: real)
    ensures Product(x, y) == Product(y, x)
  {
  }

  lemma ProductAssociative(x: real, y: real, z: real)
    ensures Product(Product(x, y), z) == Product(x, Product(y, z))
  {
  }

  lemma ProductDistributes(x: real, y: real, z: real)
    ensures Product(x, y + z) == Product(x, y) + Product(x, z)
    ensures Product(x, y - z) == Product(x, y) - Product(x, z)
  {
  }

  /** Two numbers whose product is one, the first at least one. */
  lemma Reciprocal(x: real, y: real)
    requires Product(x, y) == 1.0 && y >= 0.0
    ensures 0.0 < y
    ensures x >= 1.0 ==> y <= 1.0
    ensures x > 1.0 ==> y < 1.0
  {
    assert x >= 1.0 ==> (x - 1.0) * y >= 0.0;
    assert x > 1.0 ==> (x - 1.0) * y > 0.0;
  }

  lemma SquareNonNegative(h: real)
    ensures Product(h, h) >= 0.0
  {
    if h < 0.0 {
      assert h * h == (-h) * (-h);
    }
  }

  lemma ExpAdd(a: Analysis, x: real, y: real, s: real)
    requires Lawful(a) && s == x + y
    ensures a.exp(s) == Product(a.exp(x), a.exp(y))
  {
    assert Sum(x, y) == s;
    assert a.exp(Sum(x, y)) == Product(a.exp(x), a.exp(y));
  }

  lemma ExpPositive(a: Analysis, x: real)
    requires Lawful(a)
    ensures a.exp(x) > 0.0
  {
    ExpAdd(a, x / 2.0, x / 2.0, x);
    SquareNonNegative(a.exp(x / 2.0));
    ExpAdd(a, x, -x, 0.0);
    ProductSymmetric(a.exp(x), a.exp(-x));
    Reciprocal(a.exp(-x), a.exp(x));
  }

  /** The factor by which a first-order lag closes its gap in a step. */
  lemma DecayInUnit(a: Analysis, x: real)
    requires Lawful(a) && x >= 0.0
    ensures 0.0 < a.exp(-x) <= 1.0
    ensures x > 0.0 ==> a.exp(-x) < 1.0
  {
    ExpPositive(a, -x);
    ExpAdd(a, x, -x, 0.0);
    Reciprocal(a.exp(x), a.exp(-x));
  }

  lemma Pow08Product(a: Analysis, x: real, y: real)
    requires Lawful(a) && 0.0 <= x && 0.0 <= y
    ensures a.pow08(Product(x, y)) == Product(a.pow08(x), a.pow08(y))
  {
  }
}
