// Bounds and monotonicity of the parts of one simulation step, from the facts
// about the exponential, the sine and the power alone.
module StepBounds {
  import opened Random
  import opened Rounding
  import opened Analysis
  import opened Measurement
  import opened Physics
  import opened ThermalLag
  import opened Simulator

  // ---- ambient and load ----

  lemma AmbientBounds(a: Analysis, t: Instant)
    requires Lawful(a)
    ensures 21.0 <= AmbientAt(a, t) <= 31.0
  {
  }

  lemma SquarePositive(x: real)
    ensures Square(x) >= 0.0 && Square(x) == Product(x, x)
  {
    SquareNonNegative(x);
  }

  lemma DayShapeBounds(a: Analysis, hour: real)
    requires Lawful(a)
    ensures 0.45 <= DayShape(a, hour) <= 0.93
  {
    SquarePositive(hour - 13.0);
    SquarePositive(hour - 19.0);
    DecayInUnit(a, Square(hour - 13.0) / 14.0);
    DecayInUnit(a, Square(hour - 19.0) / 8.0);
  }

  lemma ProfileBounds(a: Analysis, hour: real, offset: real)
    requires Lawful(a)
    ensures 0.396 <= BaseLoad(a, hour, offset) <= 1.0416
  {
    DayShapeBounds(a, hour);
    assert 0.88 <= Swing(a, hour, offset) <= 1.12;
    ProductWithin(DayShape(a, hour), 0.45, 0.93, Swing(a, hour, offset), 0.88, 1.12);
  }

  lemma NominalLoadBounds(a: Analysis, now: Instant, offset: real, ambient: real, draw: real)
    requires Lawful(a) && 21.0 <= ambient <= 31.0 && 0.0 <= draw < 1.0
    ensures 36.49 <= NominalLoad(a, now, offset, ambient, draw) <= 112.65
  {
    var profile := BaseLoad(a, HourOf(now), offset);
    ProfileBounds(a, HourOf(now), offset);
    ProductWithin(profile, 0.396, 1.0416, Weather(ambient), 0.95, 1.05);
    ProductWithin(Product(profile, Weather(ambient)), 0.3762, 1.09368, Noise(draw), 0.97, 1.03);
  }

  lemma LoadBounds(a: Analysis, intensity: real, now: Instant, offset: real, ambient: real, draw: real)
    requires Lawful(a) && intensity > 0.0 && 21.0 <= ambient <= 31.0 && 0.0 <= draw < 1.0
    ensures var load := TargetLoad(a, intensity, now, offset, ambient, draw);
            && 5.0 <= load <= 160.0
            && RMin(160.0, intensity * 36.49) <= load <= RMax(5.0, intensity * 112.65)
  {
    NominalLoadBounds(a, now, offset, ambient, draw);
    ProductWithin(intensity, intensity, intensity, NominalLoad(a, now, offset, ambient, draw), 36.49, 112.65);
  }

  /** More intensity, at least as much load: the other factors are positive. */
  lemma LoadMonotone(a: Analysis, i1: real, i2: real, now: Instant, offset: real, ambient: real, draw: real)
    requires Lawful(a) && 0.0 < i1 <= i2 && 21.0 <= ambient <= 31.0 && 0.0 <= draw < 1.0
    ensures TargetLoad(a, i1, now, offset, ambient, draw) <= TargetLoad(a, i2, now, offset, ambient, draw)
  {
    NominalLoadBounds(a, now, offset, ambient, draw);
    ProductMonotone(i1, i2, NominalLoad(a, now, offset, ambient, draw));
  }

  // ---- steady targets ----

  lemma SquareMonotone(x: real, y: real)
    requires 0.0 <= x <= y
    ensures 0.0 <= Square(x) <= Square(y)
  {
    ProductLe(x, y, x, y);
  }

  lemma QuotientMonotone(x: real, y: real, d: real)
    requires x <= y && d > 0.0
    ensures Quotient(x, d) <= Quotient(y, d)
  {
  }

  lemma QuotientOfProduct(m: real, d: real)
    requires d > 0.0
    ensures Quotient(Product(m, d), d) == m
  {
  }

  lemma LossFactorBounds(k: real, r: real, m: real)
    requires r >= 0.0 && 0.0 <= Square(k) <= m && m >= 1.0
    ensures 0.0 <= LossFactor(k, r) <= m
  {
    ProductLe(r, r, Square(k), m);
    ProductDistributes(m, 1.0, r);
    ProductSymmetric(m, r);
    QuotientMonotone(1.0 + Product(r, Square(k)), Product(m, 1.0 + r), 1.0 + r);
    QuotientOfProduct(m, 1.0 + r);
    QuotientSign(1.0 + Product(r, Square(k)), 1.0 + r);
  }

  lemma LossFactorMonotone(k1: real, k2: real, r: real)
    requires r >= 0.0 && 0.0 <= k1 <= k2
    ensures 0.0 <= LossFactor(k1, r) <= LossFactor(k2, r)
  {
    SquareMonotone(k1, k2);
    ProductLe(r, r, Square(k1), Square(k2));
    QuotientMonotone(1.0 + Product(r, Square(k1)), 1.0 + Product(r, Square(k2)), 1.0 + r);
    QuotientSign(1.0 + Product(r, Square(k1)), 1.0 + r);
  }

  /** The tangent of the power at one, as a bound on the whole range below `m`. */
  lemma PowerBelow(a: Analysis, x: real, m: real)
    requires Lawful(a) && 0.0 <= x <= m
    ensures 0.0 <= a.pow08(x) <= 1.0 + 0.8 * (m - 1.0)
  {
  }

  lemma OilTargetBounds(a: Analysis, ambient: real, k: real, p: Params, m: real)
    requires Lawful(a) && GoodParams(p) && k > 0.0 && 0.0 <= Square(k) <= m && 1.0 <= m && 0.0 <= p.maxOilRise <= 62.0
    ensures ambient <= TopOilSteady(a, ambient, k, p.lossRatio, p.maxOilRise) <= ambient + Product(62.0, 1.0 + 0.8 * (m - 1.0))
  {
    LossFactorBounds(k, p.lossRatio, m);
    PowerBelow(a, LossFactor(k, p.lossRatio), m);
    ProductLe(p.maxOilRise, 62.0, a.pow08(LossFactor(k, p.lossRatio)), 1.0 + 0.8 * (m - 1.0));
  }

  lemma OilTargetMonotone(a: Analysis, ambient: real, k1: real, k2: real, p: Params)
    requires Lawful(a) && GoodParams(p) && 0.0 < k1 <= k2 && p.maxOilRise >= 0.0
    ensures TopOilSteady(a, ambient, k1, p.lossRatio, p.maxOilRise) <= TopOilSteady(a, ambient, k2, p.lossRatio, p.maxOilRise)
  {
    LossFactorMonotone(k1, k2, p.lossRatio);
    ProductMonotone(a.pow08(LossFactor(k1, p.lossRatio)), a.pow08(LossFactor(k2, p.lossRatio)), p.maxOilRise);
  }

  lemma WindingTargetBounds(a: Analysis, oil: real, k: real, grad: real, m: real)
    requires Lawful(a) && k > 0.0 && 0.0 <= Square(k) <= m && 1.0 <= m && 0.0 <= grad <= 21.5
    ensures oil <= WindingSteady(a, oil, k, grad) <= oil + Product(21.5, 1.0 + 0.8 * (m - 1.0))
  {
    PowerBelow(a, Square(k), m);
    ProductLe(grad, 21.5, a.pow08(Square(k)), 1.0 + 0.8 * (m - 1.0));
  }

  lemma WindingTargetMonotone(a: Analysis, o1: real, o2: real, k1: real, k2: real, grad: real)
    requires Lawful(a) && o1 <= o2 && 0.0 < k1 <= k2 && grad >= 0.0
    ensures WindingSteady(a, o1, k1, grad) <= WindingSteady(a, o2, k2, grad)
  {
    SquareMonotone(k1, k2);
    ProductMonotone(a.pow08(Square(k1)), a.pow08(Square(k2)), grad);
  }

  // ---- parameters ----

  lemma ParamBounds(w: World, i: nat)
    requires SoundLosses(w) && UnitStream(w.r) && i < |w.fleet|
    ensures var p := ParamsOf(w, i);
            && GoodParams(p)
            && 46.0 <= p.maxOilRise <= 62.0 && 10.5 <= p.windingGrad <= 21.5 && 0.0 <= p.loadOffset <= 8.0
  {
    var j := ParamsOfSource(w, i);
    assert 0.0 <= DrawAt(w.r, 3 * j) < 1.0 && 0.0 <= DrawAt(w.r, 3 * j + 1) < 1.0 && 0.0 <= DrawAt(w.r, 3 * j + 2) < 1.0;
  }
}
