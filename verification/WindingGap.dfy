// How far the winding can fall below the oil: the sharp one-step condition,
// its consequence for whole runs, the fleets that always satisfy it and one
// that never does.
module WindingGap {
  import opened Rounding
  import opened Analysis
  import opened Transformer
  import opened Physics
  import opened Simulator
  import opened ThermalLag
  import opened Envelope
  import Validation

  /** The winding's time constant over the oil's. */
  const RATIO: real := 7.0 / 90.0

  /** The winding gradient makes up for the oil's coming rise, but for `c`. */
  predicate Covers(gradient: real, rise: real, c: real)
  {
    gradient >= RATIO * RMax(0.0, rise) - c
  }

  function OilNext(a: Analysis, dt: real, oil: real, target: real): real
  {
    ThermalStep(a, oil, target, OIL_TIME_CONSTANT, dt)
  }

  /** The winding's step, toward the oil it has just been given plus the gradient. */
  function WindingNext(a: Analysis, dt: real, winding: real, oil: real, gradient: real): real
  {
    ThermalStep(a, winding, oil + gradient, WINDING_TIME_CONSTANT, dt)
  }

  // ---- the two decay factors of one step ----

  lemma TimeRatio(dt: real)
    ensures Quotient(dt, OIL_TIME_CONSTANT) == RATIO * Quotient(dt, WINDING_TIME_CONSTANT)
  {
  }

  lemma InverseTangent(x: real, e: real, f: real)
    requires e >= 1.0 + x && Product(e, f) == 1.0 && f >= 0.0
    ensures Product(x, f) <= 1.0 - f
  {
    ProductMonotone(1.0 + x, e, f);
    assert Product(1.0 + x, f) == f + Product(x, f);
  }

  /** `1 - e^-x <= x` and `x e^-x <= 1 - e^-x`. */
  lemma ExpTangents(a: Analysis, x: real)
    requires Lawful(a) && x >= 0.0
    ensures 1.0 - a.exp(-x) <= x
    ensures Product(x, a.exp(-x)) <= 1.0 - a.exp(-x)
  {
    var e, f := a.exp(x), a.exp(-x);
    assert f >= 0.0 by { DecayInUnit(a, x); }
    assert Product(e, f) == 1.0 by { ExpAdd(a, x, -x, 0.0); }
    InverseTangent(x, e, f);
  }

  /** What the oil closes while the winding waits is at most `RATIO` of what the winding closes. */
  lemma OilIsSlower(a: Analysis, dt: real)
    requires Lawful(a) && dt >= 0.0
    ensures var qo, qw := Decay(a, dt, OIL_TIME_CONSTANT), Decay(a, dt, WINDING_TIME_CONSTANT);
            Product(1.0 - qo, qw) <= RATIO * (1.0 - qw)
  {
    var x, y := Quotient(dt, OIL_TIME_CONSTANT), Quotient(dt, WINDING_TIME_CONSTANT);
    TimeRatio(dt);
    ExpTangents(a, x);
    ExpTangents(a, y);
    DecayInUnit(a, y);
    ProductMonotone(1.0 - a.exp(-x), RATIO * y, a.exp(-y));
    ProductAssociative(RATIO, y, a.exp(-y));
  }

  // ---- one step ----

  /** The gap after a step, exactly. */
  lemma GapAfter(oil: real, winding: real, target: real, gradient: real, qo: real, qw: real)
    ensures var next := Lag(oil, target, qo);
            Lag(winding, next + gradient, qw) - next
            == Product(winding - oil, qw) - Product(target - oil, Product(1.0 - qo, qw)) + Product(gradient, 1.0 - qw)
  {
    var next := Lag(oil, target, qo);
    assert next - oil == Product(target - oil, 1.0 - qo);
    assert Lag(winding, next + gradient, qw) - next == Product(winding - next, qw) + Product(gradient, 1.0 - qw) by {
      LagGap(winding, next + gradient, qw);
      ProductDistributes(qw, winding - next, gradient);
      ProductSymmetric(qw, winding - next);
      ProductSymmetric(qw, gradient);
      ProductSymmetric(qw, winding - next - gradient);
      ProductDistributes(gradient, 1.0, qw);
    }
    ProductAssociative(target - oil, 1.0 - qo, qw);
    ProductDistributes(qw, winding - oil, next - oil);
    ProductSymmetric(qw, winding - oil);
    ProductSymmetric(qw, next - oil);
    ProductSymmetric(qw, winding - next);
  }

  lemma GapKeptByFactors(oil: real, winding: real, target: real, gradient: real, qo: real, qw: real, c: real)
    requires 0.0 <= qo <= 1.0 && 0.0 <= qw <= 1.0 && Product(1.0 - qo, qw) <= RATIO * (1.0 - qw)
    requires winding >= oil - c && Covers(gradient, target - oil, c)
    ensures var next := Lag(oil, target, qo); Lag(winding, next + gradient, qw) >= next - c
  {
    var rise, f := target - oil, Product(1.0 - qo, qw);
    GapAfter(oil, winding, target, gradient, qo, qw);
    ProductMonotone(-c, winding - oil, qw);
    ProductSigns(1.0 - qo, qw);
    assert Product(rise, f) <= Product(RATIO * RMax(0.0, rise), 1.0 - qw) by {
      ProductMonotone(rise, RMax(0.0, rise), f);
      ProductMonotone(f, RATIO * (1.0 - qw), RMax(0.0, rise));
      ProductAssociative(RMax(0.0, rise), RATIO, 1.0 - qw);
      ProductSymmetric(RMax(0.0, rise), RATIO);
      ProductSymmetric(RATIO, 1.0 - qw);
    }
    ProductMonotone(RATIO * RMax(0.0, rise) - c, gradient, 1.0 - qw);
    Spread(RATIO * RMax(0.0, rise), c, qw);
  }

  lemma Spread(r: real, c: real, q: real)
    ensures Product(r - c, 1.0 - q) == Product(r, 1.0 - q) - c - Product(-c, q)
  {
  }

  /** A step of any size keeps the winding within `c` of the oil. */
  lemma GapKept(a: Analysis, dt: real, oil: real, winding: real, target: real, gradient: real, c: real)
    requires Lawful(a) && dt >= 0.0 && winding >= oil - c && Covers(gradient, target - oil, c)
    ensures var next := OilNext(a, dt, oil, target); WindingNext(a, dt, winding, next, gradient) >= next - c
  {
    DecayBounds(a, dt, OIL_TIME_CONSTANT);
    DecayBounds(a, dt, WINDING_TIME_CONSTANT);
    OilIsSlower(a, dt);
    GapKeptByFactors(oil, winding, target, gradient, Decay(a, dt, OIL_TIME_CONSTANT),
                     Decay(a, dt, WINDING_TIME_CONSTANT), c);
  }

  // ---- the condition is sharp ----

  lemma QuotientScales(y: real, tau: real)
    requires tau > 0.0
    ensures Quotient(Product(y, tau), tau) == y
  {
  }

  lemma ShortSide(x: real, y: real, po: real, qw: real)
    requires 0.0 <= x <= y <= 0.5 && po >= Product(x, 1.0 - x) && qw >= 1.0 - y
    ensures Product(po, qw) >= Product(x, 1.0 - 2.0 * y)
  {
    ProductSigns(x, 1.0 - x);
    ProductLe(Product(x, 1.0 - x), po, 1.0 - y, qw);
    ProductAssociative(x, 1.0 - x, 1.0 - y);
    ProductSigns(x, y);
    assert Product(1.0 - x, 1.0 - y) == 1.0 - x - y + Product(x, y);
    ProductMonotone(1.0 - 2.0 * y, Product(1.0 - x, 1.0 - y), x);
  }

  /** In a step of `y` winding time constants, to first order. */
  lemma ShortStep(a: Analysis, y: real, dt: real)
    requires Lawful(a) && 0.0 <= y <= 0.5 && dt == Product(y, WINDING_TIME_CONSTANT)
    ensures 1.0 - Decay(a, dt, WINDING_TIME_CONSTANT) <= y
    ensures Product(1.0 - Decay(a, dt, OIL_TIME_CONSTANT), Decay(a, dt, WINDING_TIME_CONSTANT))
            >= Product(RATIO * y, 1.0 - 2.0 * y)
  {
    QuotientScales(y, WINDING_TIME_CONSTANT);
    TimeRatio(dt);
    var x := Quotient(dt, OIL_TIME_CONSTANT);
    ExpTangents(a, y);
    ExpTangents(a, x);
    ProductMonotone(1.0 - x, a.exp(-x), x);
    ShortSide(x, y, 1.0 - a.exp(-x), a.exp(-y));
  }

  /** A step length for which a shortfall of gradient `g` against `s` tells. */
  lemma TellingStep(s: real, g: real) returns (y: real)
    requires 0.0 <= g < s
    ensures 0.0 < y <= 0.5 && Product(s, 1.0 - 2.0 * y) > g
  {
    y := (s - g) / (4.0 * s);
    assert y * (4.0 * s) == s - g;
    assert Product(s, 1.0 - 2.0 * y) == s - (s - g) / 2.0;
    assert y > 0.5 ==> (y - 0.5) * (4.0 * s) > 0.0;
    assert y <= 0.0 ==> -y * (4.0 * s) >= 0.0;
  }

  /** Without the condition there is a step size that loses more than `c`. */
  lemma GapLost(a: Analysis, oil: real, target: real, gradient: real, c: real) returns (dt: real)
    requires Lawful(a) && c >= 0.0 && gradient >= 0.0 && !Covers(gradient, target - oil, c)
    ensures dt > 0.0
    ensures var next := OilNext(a, dt, oil, target); WindingNext(a, dt, oil - c, next, gradient) < next - c
  {
    var rise, g := target - oil, gradient + c;
    var y := TellingStep(RATIO * rise, g);
    dt := Product(y, WINDING_TIME_CONSTANT);
    ShortStep(a, y, dt);
    var qo, qw := Decay(a, dt, OIL_TIME_CONSTANT), Decay(a, dt, WINDING_TIME_CONSTANT);
    GapAfter(oil, oil - c, target, gradient, qo, qw);
    Shortfall(rise, gradient, c, y, Product(1.0 - qo, qw), qw);
  }

  lemma Shortfall(rise: real, gradient: real, c: real, y: real, f: real, qw: real)
    requires rise > 0.0 && gradient + c >= 0.0 && y > 0.0 && 1.0 - qw <= y
    requires f >= Product(RATIO * y, 1.0 - 2.0 * y) && Product(RATIO * rise, 1.0 - 2.0 * y) > gradient + c
    ensures Product(-c, qw) - Product(rise, f) + Product(gradient, 1.0 - qw) < -c
  {
    ProductMonotone(Product(RATIO * y, 1.0 - 2.0 * y), f, rise);
    assert Product(rise, Product(RATIO * y, 1.0 - 2.0 * y)) == Product(y, Product(RATIO * rise, 1.0 - 2.0 * y));
    ProductMonotone(1.0 - qw, y, gradient + c);
    assert Product(y, Product(RATIO * rise, 1.0 - 2.0 * y) - (gradient + c)) > 0.0 by {
      ProductSigns(y, Product(RATIO * rise, 1.0 - 2.0 * y) - (gradient + c));
    }
    ProductDistributes(y, Product(RATIO * rise, 1.0 - 2.0 * y), gradient + c);
    ProductSymmetric(y, gradient + c);
    assert Product(gradient + c, 1.0 - qw) == Product(gradient, 1.0 - qw) + c + Product(-c, qw);
  }

  ghost predicate KeepsGap(a: Analysis, dt: real, oil: real, target: real, gradient: real, c: real)
  {
    var next := OilNext(a, dt, oil, target);
    WindingNext(a, dt, oil - c, next, gradient) >= next - c
  }

  /** A winding `c` below the oil falls no further in a step of any size exactly when the gradient covers the rise. */
  lemma GapKeptExactly(a: Analysis, oil: real, target: real, gradient: real, c: real)
    requires Lawful(a) && c >= 0.0 && gradient >= 0.0
    ensures (forall dt: real :: dt > 0.0 ==> KeepsGap(a, dt, oil, target, gradient, c)) <==> Covers(gradient, target - oil, c)
  {
    if Covers(gradient, target - oil, c) {
      forall dt: real | dt > 0.0 ensures KeepsGap(a, dt, oil, target, gradient, c) {
        GapKept(a, dt, oil, oil - c, target, gradient, c);
      }
    } else {
      var dt := GapLost(a, oil, target, gradient, c);
      assert !KeepsGap(a, dt, oil, target, gradient, c);
    }
  }

  // ---- whole runs ----

  /** The gradient a pass gives its winding, and the rise its oil has ahead of it. */
  ghost function GradientOf(w: World, x: PassInput): real
  {
    Product(x.p.windingGrad, w.a.pow08(Square(LoadOf(w, x) / 100.0)))
  }

  ghost function RiseOf(w: World, x: PassInput): real
  {
    TopOilSteady(w.a, AmbientAt(w.a, x.now), LoadOf(w, x) / 100.0, x.p.lossRatio, x.p.maxOilRise) - x.u.oil
  }

  ghost predicate Covered(w: World, x: PassInput, c: real)
  {
    Covers(GradientOf(w, x), RiseOf(w, x), c)
  }

  /** Every tick so far gave unit `i` gradient enough. */
  ghost predicate CoveredThrough(w: World, n: nat, i: nat, c: real)
    requires GoodWorld(w) && i < |w.fleet|
  {
    forall m: nat :: 0 < m <= n ==> Covered(w, InputAt(w, m, i), c)
  }

  lemma PassGap(w: World, t: Transformer, x: PassInput, c: real)
    requires Lawful(w.a) && w.interval > 0 && LoadOf(w, x) > 0.0
    requires Covered(w, x, c) && x.u.winding >= x.u.oil - c
    ensures Pass(w, t, x).unit.winding >= Pass(w, t, x).unit.oil - c
  {
    var load := LoadOf(w, x);
    GapKept(w.a, Dt(w), x.u.oil, x.u.winding,
            TopOilSteady(w.a, AmbientAt(w.a, x.now), load / 100.0, x.p.lossRatio, x.p.maxOilRise),
            GradientOf(w, x), c);
  }

  /** While every step is covered, the winding is never more than `c` below the oil. */
  lemma {:induction false} GapAlways(w: World, n: nat, i: nat, c: real)
    requires Bounded(w) && i < |w.fleet| && c >= 0.0 && CoveredThrough(w, n, i, c)
    ensures UnitAt(w, n, i).winding >= UnitAt(w, n, i).oil - c
  {
    if n > 0 {
      GapAlways(w, n - 1, i, c);
      AlwaysInEnvelope(w, n, i);
      PassGap(w, w.fleet[i], InputAt(w, n, i), c);
    }
  }

  lemma RoundShift(x: real)
    requires x >= 10.0
    ensures RoundHalfAway(x - 5.0) == RoundHalfAway(x) - 5
  {
    assert (x - 5.0 + 0.5).Floor == (x + 0.5).Floor - 5;
  }

  /** A half-degree tolerance survives rounding to tenths. */
  lemma GapRounds(oil: real, winding: real)
    requires oil >= 1.0
    ensures winding >= oil - 0.5 ==> Round1(winding) >= Round1(oil) - 0.5
    ensures winding >= oil ==> Round1(winding) >= Round1(oil)
  {
    if winding >= oil - 0.5 {
      RoundShift(oil * 10.0);
      RoundMonotone(oil * 10.0 - 5.0, winding * 10.0);
    }
    if winding >= oil {
      Round1Monotone(oil, winding);
    }
  }

  /** The reported fields pass the contract's tolerance; with nothing to make up, the strict order of the data tests. */
  lemma ReportedGap(w: World, n: nat, i: nat, c: real)
    requires Bounded(w) && i < |w.fleet| && n > 0 && 0.0 <= c <= 0.5 && CoveredThrough(w, n, i, c)
    ensures Validation.WindingClearsOil(EmittedAt(w, n, i))
    ensures c == 0.0 ==> EmittedAt(w, n, i).winding >= EmittedAt(w, n, i).oil
  {
    GapAlways(w, n, i, c);
    AlwaysInEnvelope(w, n, i);
    TickEquations(w, n, i);
    GapRounds(UnitAt(w, n, i).oil, UnitAt(w, n, i).winding);
  }
}
