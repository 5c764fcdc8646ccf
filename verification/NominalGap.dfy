// Fleets of steep losses from nominal intensity on: the winding's deficit is kept
// within a budget that grows with the oil's warming, and never above half a degree.
module NominalGap {
  import opened Random
  import opened Rounding
  import opened Analysis
  import opened Transformer
  import opened Physics
  import opened Simulator
  import opened ThermalLag
  import opened StepBounds
  import opened Envelope
  import opened WindingGap
  import opened Validation

  // ---- two more facts about the decay factors ----

  lemma HalfStep(s: real, half: real, y: real)
    requires 0.0 <= s <= 1.0 && y == 2.0 * half && Product(half, s) <= 1.0 - s
    ensures var u := 1.0 - Product(s, s); Product(y, Product(s, s)) <= u - Square(u) / 4.0
  {
    var u := 1.0 - Product(s, s);
    assert Product(y, Product(s, s)) == 2.0 * Product(Product(half, s), s);
    ProductMonotone(Product(half, s), 1.0 - s, s);
    CurveGap(s, u);
    SquarePositive(1.0 - s);
    SquareMonotone(1.0 + s, 2.0);
    ProductSigns(Square(1.0 - s), 1.0 - Square(1.0 + s) / 4.0);
  }

  lemma CurveGap(s: real, u: real)
    requires u == 1.0 - Product(s, s)
    ensures u - Square(u) / 4.0 - 2.0 * Product(1.0 - s, s) == Product(Square(1.0 - s), 1.0 - Square(1.0 + s) / 4.0)
  {
  }

  /** `y e^-y <= u - u^2/4`, where `u` is `1 - e^-y`. */
  lemma DecayCurves(a: Analysis, y: real)
    requires Lawful(a) && y >= 0.0
    ensures var u := 1.0 - a.exp(-y); Product(y, a.exp(-y)) <= u - Square(u) / 4.0
  {
    var half := y / 2.0;
    var s := a.exp(-half);
    DecayInUnit(a, half);
    ExpTangents(a, half);
    ExpAdd(a, -half, -half, -y);
    HalfStep(s, half, y);
  }

  lemma Convex(e: real, x: real, y: real, ex: real, ey: real)
    requires x == RATIO * y && e >= 0.0 && Product(e, ex) == 1.0 && ex >= 1.0 + x
    requires ey >= Product(e, 1.0 - (y - x))
    ensures e <= 1.0 - RATIO + RATIO * ey
  {
    ProductMonotone(1.0 + x, ex, e);
    assert RATIO * Product(e, 1.0 - (y - x)) + (1.0 - RATIO) * Product(e, 1.0 + x) == e;
  }

  lemma LaterDecay(a: Analysis, x: real, y: real)
    requires Lawful(a) && 0.0 <= x <= y
    ensures Product(a.exp(-x), 1.0 - (y - x)) <= a.exp(-y) <= a.exp(-x)
  {
    var d := y - x;
    DecayInUnit(a, x);
    DecayInUnit(a, d);
    ExpAdd(a, -x, -d, -y);
    Sandwich(a.exp(-x), 1.0 - d, a.exp(-d));
  }

  lemma Sandwich(e: real, lo: real, m: real)
    requires e >= 0.0 && lo <= m <= 1.0
    ensures Product(e, lo) <= Product(e, m) <= e
  {
    ProductMonotone(lo, m, e);
    ProductMonotone(m, 1.0, e);
    assert Product(e, 1.0) == e;
  }

  lemma ExpAbove(a: Analysis, x: real)
    requires Lawful(a)
    ensures a.exp(x) >= 1.0 + x && a.exp(0.0) == 1.0
  {
  }

  lemma InverseDecay(a: Analysis, x: real)
    requires Lawful(a) && x >= 0.0
    ensures Product(a.exp(-x), a.exp(x)) == 1.0 && a.exp(x) >= 1.0 + x && a.exp(-x) >= 0.0
  {
    hide Product, Lawful;
    ExpAbove(a, x);
    DecayInUnit(a, x);
    ExpAdd(a, -x, x, 0.0);
  }

  /** The oil closes at least `RATIO` of what the winding closes, and no more than it. */
  lemma OilFollows(a: Analysis, dt: real)
    requires Lawful(a) && dt >= 0.0
    ensures var qo, qw := Decay(a, dt, OIL_TIME_CONSTANT), Decay(a, dt, WINDING_TIME_CONSTANT);
            RATIO * (1.0 - qw) <= 1.0 - qo <= 1.0 - qw
  {
    hide Product, Quotient, Lawful;
    var x, y := Quotient(dt, OIL_TIME_CONSTANT), Quotient(dt, WINDING_TIME_CONSTANT);
    TimeRatio(dt);
    QuotientSign(dt, WINDING_TIME_CONSTANT);
    LaterDecay(a, x, y);
    InverseDecay(a, x);
    Convex(a.exp(-x), x, y, a.exp(x), a.exp(-y));
  }

  /** What the oil closes while the winding waits, to second order. */
  lemma OilWaits(a: Analysis, dt: real)
    requires Lawful(a) && dt >= 0.0
    ensures var qo, qw := Decay(a, dt, OIL_TIME_CONSTANT), Decay(a, dt, WINDING_TIME_CONSTANT);
            var u := 1.0 - qw;
            0.0 <= Product(1.0 - qo, qw) <= RATIO * (u - Square(u) / 4.0)
  {
    var x, y := Quotient(dt, OIL_TIME_CONSTANT), Quotient(dt, WINDING_TIME_CONSTANT);
    TimeRatio(dt);
    QuotientSign(dt, WINDING_TIME_CONSTANT);
    ExpTangents(a, x);
    DecayInUnit(a, x);
    DecayInUnit(a, y);
    DecayCurves(a, y);
    ProductMonotone(1.0 - a.exp(-x), RATIO * y, a.exp(-y));
    ProductAssociative(RATIO, y, a.exp(-y));
    ProductSigns(1.0 - a.exp(-x), a.exp(-y));
  }

  // ---- the budget ----

  /** The deficit allowed for each degree the oil has warmed above the coldest ambient. */
  const SHARE: real := 0.2508

  predicate InBudget(oil: real, winding: real)
  {
    && oil >= 21.0
    && winding >= oil - 0.5
    && winding >= oil - SHARE * (oil - 21.0)
  }

  /** The gradient pays for the coming rise out of the budget, and leaves enough margin below half a degree. */
  predicate Paid(oil: real, target: real, gradient: real)
  {
    && target >= 21.0
    && gradient >= 1.943
    && (1.0 - SHARE) * RATIO * (target - oil) <= gradient + SHARE * (oil - 21.0)
    && RATIO * (target - oil) - gradient <= 0.65 - RATIO * (oil - 21.0)
  }

  lemma LagMoves(c: real, t: real, q: real)
    ensures Lag(c, t, q) - c == Product(t - c, 1.0 - q)
  {
  }

  lemma ShareLeft(t: real, q: real)
    ensures Product(-SHARE * t, q) == -SHARE * t + SHARE * Product(t, 1.0 - q)
  {
  }

  lemma PartLeft(b: real, q: real)
    ensures Product(-b, q) == -b + Product(b, 1.0 - q)
  {
  }

  /** The deficit stays below its share of the oil's warming. */
  lemma ShareKept(oil: real, winding: real, target: real, gradient: real, qo: real, qw: real)
    requires 0.0 <= qo <= 1.0 && 0.0 <= qw <= 1.0 && InBudget(oil, winding) && Paid(oil, target, gradient)
    requires RATIO * (1.0 - qw) <= 1.0 - qo <= 1.0 - qw && Product(1.0 - qo, qw) <= RATIO * (1.0 - qw)
    ensures var next := Lag(oil, target, qo);
            Lag(winding, next + gradient, qw) >= next - SHARE * (next - 21.0)
  {
    var rise, f, u, po, t := target - oil, Product(1.0 - qo, qw), 1.0 - qw, 1.0 - qo, oil - 21.0;
    var next := Lag(oil, target, qo);
    GapAfter(oil, winding, target, gradient, qo, qw);
    LagMoves(oil, target, qo);
    ProductMonotone(-SHARE * t, winding - oil, qw);
    ShareLeft(t, qw);
    ProductSigns(po, qw);
    hide Lag, Product;
    ShareArithmetic(rise, gradient, t, u, po, f);
  }

  lemma ShareArithmetic(rise: real, gradient: real, t: real, u: real, po: real, f: real)
    requires 0.0 <= u <= 1.0 && t >= 0.0 && rise >= -t && gradient >= 0.0
    requires RATIO * u <= po <= u && 0.0 <= f <= RATIO * u
    requires (1.0 - SHARE) * RATIO * rise <= gradient + SHARE * t
    ensures SHARE * Product(t, u) - Product(rise, f) + Product(gradient, u) + SHARE * Product(rise, po) >= 0.0
  {
    ProductSigns(gradient, u);
    if rise >= 0.0 {
      ProductMonotone(f, RATIO * u, rise);
      ProductMonotone(RATIO * u, po, rise);
      assert Product(rise, RATIO * u) == RATIO * Product(rise, u);
      ProductMonotone((1.0 - SHARE) * RATIO * rise, gradient + SHARE * t, u);
      assert Product((1.0 - SHARE) * RATIO * rise, u) == (1.0 - SHARE) * RATIO * Product(rise, u);
      assert Product(gradient + SHARE * t, u) == Product(gradient, u) + SHARE * Product(t, u);
    } else {
      ProductSigns(-rise, f);
      assert Product(-rise, f) == -Product(rise, f);
      ProductLe(-rise, t, po, u);
      assert Product(-rise, po) == -Product(rise, po);
    }
  }

  /** `-e u + r u^2/4` dips no lower than `-0.34 e`. */
  lemma Dip(e: real, r: real, u: real)
    requires 0.0 <= e <= 0.65 && r >= 1.943 && 0.0 <= u <= 1.0
    ensures Product(r, Square(u)) / 4.0 - Product(e, u) >= -0.34 * e
  {
    SquarePositive(u);
    ProductMonotone(1.943, r, Square(u));
    assert Product(1.943, Square(u)) == 1.943 * Square(u);
    if u <= 0.34 {
      ProductMonotone(u, 0.34, e);
      assert Product(e, 0.34) == 0.34 * e;
      ProductSigns(1.943, Square(u));
    } else {
      ProductMonotone(e, 0.65, u - 0.34);
      assert Product(e, u - 0.34) == Product(e, u) - 0.34 * e;
      assert Product(0.65, u - 0.34) == 0.65 * u - 0.221;
      SquarePositive(u - 0.66);
      assert Square(u - 0.66) == Square(u) - 1.32 * u + 0.4356;
    }
  }

  /** The deficit stays within half a degree. */
  lemma HalfKept(oil: real, winding: real, target: real, gradient: real, qo: real, qw: real)
    requires 0.0 <= qo <= 1.0 && 0.0 <= qw <= 1.0 && InBudget(oil, winding) && Paid(oil, target, gradient)
    requires 0.0 <= Product(1.0 - qo, qw) <= RATIO * ((1.0 - qw) - Square(1.0 - qw) / 4.0)
    ensures var next := Lag(oil, target, qo); Lag(winding, next + gradient, qw) >= next - 0.5
  {
    var rise, f, u := target - oil, Product(1.0 - qo, qw), 1.0 - qw;
    var b := RMin(0.5, SHARE * (oil - 21.0));
    GapAfter(oil, winding, target, gradient, qo, qw);
    ProductMonotone(-b, winding - oil, qw);
    PartLeft(b, qw);
    hide Lag, Product, Square;
    HalfArithmetic(rise, gradient, oil - 21.0, b, u, f);
  }

  lemma HalfArithmetic(rise: real, gradient: real, t: real, b: real, u: real, f: real)
    requires 0.0 <= u <= 1.0 && t >= 0.0 && b == RMin(0.5, SHARE * t) && gradient >= 1.943
    requires RATIO * rise - gradient <= 0.65 - RATIO * t
    requires 0.0 <= f <= RATIO * (u - Square(u) / 4.0)
    ensures -b + Product(b, u) - Product(rise, f) + Product(gradient, u) >= -0.5
  {
    ProductSigns(b, u);
    ProductSigns(gradient, u);
    if rise <= 0.0 {
      ProductSigns(-rise, f);
      ProductNegates(rise, f);
    } else {
      var r := RATIO * rise;
      WaitsCost(rise, r, u, f);
      hide Product, Square;
      HalfOfCurve(r, gradient, t, b, u);
    }
  }

  lemma WaitsCost(rise: real, r: real, u: real, f: real)
    requires rise >= 0.0 && r == RATIO * rise && f <= RATIO * (u - Square(u) / 4.0)
    ensures Product(rise, f) <= Product(r, u) - Product(r, Square(u)) / 4.0
  {
    ProductMonotone(f, RATIO * (u - Square(u) / 4.0), rise);
    assert Product(rise, RATIO * (u - Square(u) / 4.0)) == Product(r, u) - Product(r, Square(u)) / 4.0;
  }

  lemma DeficitSplits(e: real, r: real, gradient: real, b: real, u: real)
    requires e == r - gradient - b
    ensures Product(e, u) == Product(r, u) - Product(gradient, u) - Product(b, u)
  {
  }

  lemma HalfOfCurve(r: real, gradient: real, t: real, b: real, u: real)
    requires 0.0 <= u <= 1.0 && t >= 0.0 && b == RMin(0.5, SHARE * t) && gradient >= 1.943 && r >= 0.0
    requires r - gradient <= 0.65 - RATIO * t
    ensures -b + Product(b, u) - Product(r, u) + Product(r, Square(u)) / 4.0 + Product(gradient, u) >= -0.5
  {
    var e := r - gradient - b;
    DeficitSplits(e, r, gradient, b, u);
    SquarePositive(u);
    ProductSigns(r, Square(u));
    if e <= 0.0 {
      ProductSigns(-e, u);
      ProductNegates(e, u);
    } else {
      Dip(e, r, u);
    }
    hide Product, Square;
  }

  // ---- steps and runs ----

  lemma BudgetKept(a: Analysis, dt: real, oil: real, winding: real, target: real, gradient: real)
    requires Lawful(a) && dt >= 0.0 && InBudget(oil, winding) && Paid(oil, target, gradient)
    ensures var next := OilNext(a, dt, oil, target); InBudget(next, WindingNext(a, dt, winding, next, gradient))
  {
    var qo, qw := Decay(a, dt, OIL_TIME_CONSTANT), Decay(a, dt, WINDING_TIME_CONSTANT);
    DecayBounds(a, dt, OIL_TIME_CONSTANT);
    DecayBounds(a, dt, WINDING_TIME_CONSTANT);
    OilIsSlower(a, dt);
    OilFollows(a, dt);
    OilWaits(a, dt);
    hide Decay, Product;
    LagBetween(oil, target, qo);
    ShareKept(oil, winding, target, gradient, qo, qw);
    HalfKept(oil, winding, target, gradient, qo, qw);
  }

  /** Load losses of at least 3.7 times the no-load losses. */
  ghost predicate SteepLosses(w: World)
  {
    forall i :: 0 <= i < |w.fleet| ==> LossRatioOf(w.fleet[i]) >= 3.7
  }

  lemma SteepParams(w: World, i: nat)
    requires SteepLosses(w) && i < |w.fleet|
    ensures ParamsOf(w, i).lossRatio >= 3.7
  {
    var _ := ParamsOfSource(w, i);
  }

  lemma NominalLoadSquared(load: real)
    requires 36.49 <= load <= 146.445
    ensures 0.133152 <= Square(load / 100.0) <= 2.145
  {
    SquareMonotone(0.3649, load / 100.0);
    SquareMonotone(load / 100.0, 1.46445);
  }

  /** The relative losses against the squared load ratio. */
  lemma LossesBySquare(k: real, r: real)
    requires r >= 3.7 && Square(k) >= 0.133152
    ensures 0.0 <= LossFactor(k, r) <= Product(2.3852, Square(k))
  {
    var q := Square(k);
    assert 1.0 + Product(r, q) <= Product(Product(2.3852, q), 1.0 + r) by {
      ProductMonotone(3.7, r, q);
      assert Product(Product(2.3852, q), 1.0 + r) == 2.3852 * q + 1.3852 * Product(r, q) + Product(r, q);
      assert Product(3.7, q) == 3.7 * q;
    }
    ProductSigns(r, q);
    QuotientMonotone(1.0 + Product(r, q), Product(Product(2.3852, q), 1.0 + r), 1.0 + r);
    QuotientOfProduct(Product(2.3852, q), 1.0 + r);
    QuotientSign(1.0 + Product(r, q), 1.0 + r);
  }

  /** Twice the square root: the power below `b` at `y` is below `b^4` at `x <= y^4`. */
  lemma FourthRootAbove(a: Analysis, x: real, y: real, b: real)
    requires Lawful(a) && y >= 0.0 && 0.0 <= x <= Square(Square(y)) && a.pow08(y) <= b
    ensures 0.0 <= a.pow08(x) <= Square(Square(b))
  {
    SquarePositive(y);
    SquarePositive(Square(y));
    Pow08Product(a, y, y);
    Pow08Product(a, Square(y), Square(y));
    ProductLe(a.pow08(y), b, a.pow08(y), b);
    SquarePositive(b);
    SquarePositive(Square(b));
    ProductLe(a.pow08(Square(y)), Square(b), a.pow08(Square(y)), Square(b));
  }

  lemma FourthRootBelow(a: Analysis, x: real, y: real, b: real)
    requires Lawful(a) && y >= 0.0 && Square(Square(y)) <= x && 0.0 <= b <= a.pow08(y)
    ensures a.pow08(x) >= Square(Square(b))
  {
    SquarePositive(y);
    SquarePositive(Square(y));
    Pow08Product(a, y, y);
    Pow08Product(a, Square(y), Square(y));
    ProductLe(b, a.pow08(y), b, a.pow08(y));
    SquarePositive(b);
    SquarePositive(Square(b));
    ProductLe(Square(b), a.pow08(Square(y)), Square(b), a.pow08(Square(y)));
  }

  /** Below one, the power lies above the reciprocal of its tangent at the reciprocal. */
  lemma PowerAbove(a: Analysis, x: real, y: real, b: real)
    requires Lawful(a) && 0.0 < x && y >= 0.0 && Product(x, y) == 1.0 && 0.0 <= b && Product(b, 1.0 + 0.8 * (y - 1.0)) <= 1.0
    requires 1.0 + 0.8 * (y - 1.0) > 0.0
    ensures a.pow08(x) >= b
  {
    hide Product, Lawful;
    Pow08Product(a, x, y);
    PowerBelow(a, y, y);
    PowerBelow(a, x, x);
    PowerOfOne(a);
    var p, t := a.pow08(x), 1.0 + 0.8 * (y - 1.0);
    ProductMonotone(a.pow08(y), t, p);
    CancelBelow(p, b, t);
  }

  lemma PowerOfOne(a: Analysis)
    requires Lawful(a)
    ensures a.pow08(1.0) == 1.0
  {
  }

  lemma CancelBelow(p: real, b: real, t: real)
    requires Product(p, t) >= 1.0 && Product(b, t) <= 1.0 && t > 0.0
    ensures p >= b
  {
    ProductSigns(b - p, t);
    ProductDistributes(t, b, p);
    ProductSymmetric(t, b - p);
    ProductSymmetric(t, b);
    ProductSymmetric(t, p);
  }

  lemma NominalPower(a: Analysis, q: real)
    requires Lawful(a) && q >= 0.133152
    ensures a.pow08(q) >= 0.18513
  {
    var x := 0.604;
    var y := Divide(x);
    PowerAbove(a, x, y, 0.65595);
    assert Square(Square(x)) <= q;
    FourthRootBelow(a, q, x, 0.65595);
  }

  lemma Divide(x: real) returns (y: real)
    requires x == 0.604
    ensures Product(x, y) == 1.0 && 1.6556 <= y <= 1.65563
  {
    y := 1.0 / x;
  }

  /** The oil's power against the winding's. */
  lemma PowersCompared(a: Analysis, k: real, r: real)
    requires Lawful(a) && r >= 3.7 && Square(k) >= 0.133152
    ensures 0.0 <= a.pow08(LossFactor(k, r)) <= 2.0341 * a.pow08(Square(k))
    ensures a.pow08(Square(k)) >= 0.18513
  {
    LossesBySquare(k, r);
    NominalPower(a, Square(k));
    Pow08Product(a, 2.3852, Square(k));
    PowerBelow(a, 1.2428, 1.2428);
    FourthRootAbove(a, 2.3852, 1.2428, 1.19424);
    ProductMonotone(a.pow08(2.3852), 2.0341, a.pow08(Square(k)));
    assert Product(2.0341, a.pow08(Square(k))) == 2.0341 * a.pow08(Square(k));
  }

  lemma SteepIsPaid(w: World, x: PassInput)
    requires Lawful(w.a) && RatedParams(x.p) && x.p.lossRatio >= 3.7 && x.u.oil >= 21.0
    requires 36.49 <= LoadOf(w, x) <= 146.445
    ensures Paid(x.u.oil, x.u.oil + RiseOf(w, x), GradientOf(w, x))
  {
    var k := LoadOf(w, x) / 100.0;
    NominalLoadSquared(LoadOf(w, x));
    PowersCompared(w.a, k, x.p.lossRatio);
    AmbientBounds(w.a, x.now);
    var p, l := w.a.pow08(Square(k)), w.a.pow08(LossFactor(k, x.p.lossRatio));
    ProductMonotone(10.5, x.p.windingGrad, p);
    ProductMonotone(x.p.maxOilRise, 62.0, l);
    ProductSigns(x.p.maxOilRise, l);
    assert Product(10.5, p) == 10.5 * p && Product(62.0, l) == 62.0 * l;
    SteepArithmetic(x.u.oil, AmbientAt(w.a, x.now), Product(x.p.maxOilRise, l), GradientOf(w, x), p);
  }

  lemma SteepArithmetic(oil: real, ambient: real, warming: real, gradient: real, p: real)
    requires oil >= 21.0 && 21.0 <= ambient <= 31.0 && p >= 0.18513
    requires gradient >= 10.5 * p && 0.0 <= warming <= 62.0 * 2.0341 * p
    ensures Paid(oil, ambient + warming, gradient)
  {
  }

  lemma NominalLoads(w: World, n: nat, i: nat)
    requires Bounded(w) && w.intensity >= 1.0 && i < |w.fleet| && n > 0
    ensures 36.49 <= LoadAt(w, n, i) <= 146.445
  {
    hide Pass;
    AlwaysInEnvelope(w, n, i);
    AlwaysInEnvelope(w, n - 1, i);
    TickEquations(w, n, i);
    var draw := DrawAt(w.r, DrawIndex(w, n, i));
    assert 0.0 <= draw < 1.0;
    LoadBounds(w.a, w.intensity, NowAt(w, n), ParamsOf(w, i).loadOffset, UnitAt(w, n - 1, i).ambient, draw);
  }

  lemma PassBudget(w: World, t: Transformer, x: PassInput)
    requires Lawful(w.a) && w.interval > 0 && LoadOf(w, x) > 0.0
    requires InBudget(x.u.oil, x.u.winding) && Paid(x.u.oil, x.u.oil + RiseOf(w, x), GradientOf(w, x))
    ensures InBudget(Pass(w, t, x).unit.oil, Pass(w, t, x).unit.winding)
  {
    BudgetKept(w.a, Dt(w), x.u.oil, x.u.winding, x.u.oil + RiseOf(w, x), GradientOf(w, x));
  }

  /** Steep losses from nominal intensity on: every unit stays in budget at every tick of every run. */
  lemma {:induction false} AlwaysInBudget(w: World, n: nat, i: nat)
    requires Bounded(w) && SteepLosses(w) && w.intensity >= 1.0 && i < |w.fleet|
    ensures InBudget(UnitAt(w, n, i).oil, UnitAt(w, n, i).winding)
  {
    hide Pass, LoadOf, InBudget, RiseOf, GradientOf, Paid;
    if n == 0 {
      StartsInBudget(w, n, i);
    } else {
      AlwaysInBudget(w, n - 1, i);
      AlwaysInEnvelope(w, n - 1, i);
      NominalLoads(w, n, i);
      ParamBounds(w, i);
      SteepParams(w, i);
      SteepIsPaid(w, InputAt(w, n, i));
      PassBudget(w, w.fleet[i], InputAt(w, n, i));
    }
  }

  lemma StartsInBudget(w: World, n: nat, i: nat)
    requires GoodWorld(w) && Lawful(w.a) && i < |w.fleet| && n == 0
    ensures InBudget(UnitAt(w, n, i).oil, UnitAt(w, n, i).winding)
  {
    AmbientBounds(w.a, NowAt(w, n));
  }

  /** So every sample of every such run clears the oil by the contract's tolerance. */
  lemma SteepFleetClears(w: World, n: nat, i: nat)
    requires Bounded(w) && SteepLosses(w) && w.intensity >= 1.0 && i < |w.fleet| && n > 0
    ensures WindingClearsOil(EmittedAt(w, n, i))
  {
    hide Pass, LoadOf;
    AlwaysInBudget(w, n, i);
    AlwaysInEnvelope(w, n, i);
    TickEquations(w, n, i);
    GapRounds(UnitAt(w, n, i).oil, UnitAt(w, n, i).winding);
  }
}
