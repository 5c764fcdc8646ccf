// What the equations say at rated values, how their results scale, what the
// parameters of a unit are drawn from, and what a sample reports of its tick.
module PhysicsLaws {
  import opened Rounding
  import opened Analysis
  import opened Measurement
  import opened Transformer
  import opened Physics
  import opened ThermalLag
  import opened Simulator
  import opened StepBounds
  import opened OrderPreservation

  // ---- steady temperatures ----

  /** Full load warms the oil by its rated rise and the winding by its rated gradient; no load by nothing. */
  lemma RatedLoad(a: Analysis, ambient: real, oil: real, lossRatio: real, rise: real, gradient: real)
    requires Lawful(a) && lossRatio >= 0.0
    ensures TopOilSteady(a, ambient, 1.0, lossRatio, rise) == ambient + rise
    ensures WindingSteady(a, oil, 1.0, gradient) == oil + gradient
    ensures TopOilSteady(a, ambient, 0.0, lossRatio, rise) == ambient && WindingSteady(a, oil, 0.0, gradient) == oil
  {
    assert Square(1.0) == 1.0;
    assert Product(lossRatio, 1.0) == lossRatio;
    QuotientOfProduct(1.0, 1.0 + lossRatio);
  }

  lemma QuotientTimes(x: real, d: real)
    requires d != 0.0
    ensures Product(Quotient(x, d), d) == x
  {
  }

  lemma RiseIs(a: Analysis, ambient: real, k: real, lossRatio: real, rise: real)
    requires k > 0.0 && lossRatio >= 0.0
    ensures TopOilSteady(a, ambient, k, lossRatio, rise) - ambient == Product(rise, a.pow08(LossFactor(k, lossRatio)))
  {
    hide LossFactor;
  }

  lemma FactorTimesRated(k: real, lossRatio: real)
    requires lossRatio >= 0.0
    ensures LossFactor(k, lossRatio) >= 0.0
    ensures Product(LossFactor(k, lossRatio), 1.0 + lossRatio) == 1.0 + lossRatio * (k * k)
  {
    SquarePositive(k);
    ProductSigns(lossRatio, Square(k));
    QuotientSign(1.0 + Product(lossRatio, Square(k)), 1.0 + lossRatio);
    QuotientTimes(1.0 + Product(lossRatio, Square(k)), 1.0 + lossRatio);
  }

  /** The oil's rise goes with the losses, one part no-load to `lossRatio` parts load, to the power 0.8. */
  lemma RiseFollowsLosses(a: Analysis, ambient: real, k: real, lossRatio: real, rise: real)
    requires Lawful(a) && k > 0.0 && lossRatio >= 0.0
    ensures Product(TopOilSteady(a, ambient, k, lossRatio, rise) - ambient, a.pow08(1.0 + lossRatio)) ==
            Product(rise, a.pow08(1.0 + lossRatio * (k * k)))
  {
    hide *;
    RiseIs(a, ambient, k, lossRatio, rise);
    FactorTimesRated(k, lossRatio);
    Pow08Product(a, LossFactor(k, lossRatio), 1.0 + lossRatio);
    ProductAssociative(rise, a.pow08(LossFactor(k, lossRatio)), a.pow08(1.0 + lossRatio));
  }

  lemma SquareOfProduct(c: real, k: real)
    ensures Square(c * k) == Product(Square(k), Square(c))
  {
  }

  /** The winding's gradient at `c` times the load is `c^1.6` times as large. */
  lemma GradientScales(a: Analysis, oil: real, k: real, c: real, gradient: real)
    requires Lawful(a) && k > 0.0 && c > 0.0 && c * k > 0.0
    ensures WindingSteady(a, oil, c * k, gradient) - oil ==
            Product(WindingSteady(a, oil, k, gradient) - oil, a.pow08(c * c))
  {
    hide Lawful, Product;
    SquarePositive(k);
    SquarePositive(c);
    SquareOfProduct(c, k);
    Pow08Product(a, Square(k), Square(c));
    ProductAssociative(gradient, a.pow08(Square(k)), a.pow08(Square(c)));
  }

  // ---- inertia ----

  /** In 90 minutes the oil, in 7 the winding closes all of its gap but the fraction `1/e`. */
  lemma TimeConstants(a: Analysis, p: Params, u: Unit, ambient: real, load: real, oil: real, oilTarget: real, windingTarget: real)
    requires oilTarget == TopOilSteady(a, ambient, load / 100.0, p.lossRatio, p.maxOilRise)
    requires windingTarget == WindingSteady(a, oil, load / 100.0, p.windingGrad)
    ensures OilAfter(a, 90.0 * 60.0, p, u, ambient, load) - oilTarget == Product(u.oil - oilTarget, a.exp(-1.0))
    ensures WindingAfter(a, 7.0 * 60.0, p, u, oil, load) - windingTarget == Product(u.winding - windingTarget, a.exp(-1.0))
  {
    hide TopOilSteady, WindingSteady;
    LagGap(u.oil, oilTarget, Decay(a, 5400.0, OIL_TIME_CONSTANT));
    LagGap(u.winding, windingTarget, Decay(a, 420.0, WINDING_TIME_CONSTANT));
  }

  /** A tick leads the oil toward its target at the new ambient, and the winding toward its target above the new oil. */
  lemma TickLeads(w: World, n: nat, i: nat)
    requires GoodWorld(w) && i < |w.fleet| && n > 0
    ensures var p, u, v, load := ParamsOf(w, i), UnitAt(w, n - 1, i), UnitAt(w, n, i), LoadAt(w, n, i);
            var dt := w.interval as real / 1_000_000_000.0;
            var oilTarget := TopOilSteady(w.a, AmbientAt(w.a, NowAt(w, n)), load / 100.0, p.lossRatio, p.maxOilRise);
            var windingTarget := WindingSteady(w.a, v.oil, load / 100.0, p.windingGrad);
            && v.ambient == AmbientAt(w.a, NowAt(w, n))
            && v.oil - oilTarget == Product(u.oil - oilTarget, w.a.exp(-Quotient(dt, 5400.0)))
            && v.winding - windingTarget == Product(u.winding - windingTarget, w.a.exp(-Quotient(dt, 420.0)))
  {
    hide Pass, LoadOf, TopOilSteady, WindingSteady, AmbientAt;
    TickEquations(w, n, i);
    var p, u, v, load := ParamsOf(w, i), UnitAt(w, n - 1, i), UnitAt(w, n, i), LoadAt(w, n, i);
    LagGap(u.oil, TopOilSteady(w.a, v.ambient, load / 100.0, p.lossRatio, p.maxOilRise), Decay(w.a, Dt(w), OIL_TIME_CONSTANT));
    LagGap(u.winding, WindingSteady(w.a, v.oil, load / 100.0, p.windingGrad), Decay(w.a, Dt(w), WINDING_TIME_CONSTANT));
  }

  // ---- parameters ----

  /** Rated rise and gradient of each cooling type: the stronger the cooling, the more rise and the less gradient. */
  lemma CoolingRatings(t: Transformer)
    requires t.cooling in VALID_COOLING_TYPES
    ensures t.cooling == "ONAN" <==> OilRiseFor(t.cooling) == 48.0 && WindingGradFor(t.cooling) == 20.0
    ensures t.cooling == "ONAF" <==> OilRiseFor(t.cooling) == 52.0 && WindingGradFor(t.cooling) == 18.0
    ensures t.cooling == "OFAF" <==> OilRiseFor(t.cooling) == 55.0 && WindingGradFor(t.cooling) == 15.0
    ensures t.cooling == "OFWF" <==> OilRiseFor(t.cooling) == 58.0 && WindingGradFor(t.cooling) == 13.0
    ensures t.cooling == "ODAF" <==> OilRiseFor(t.cooling) == 60.0 && WindingGradFor(t.cooling) == 12.0
  {
  }

  /**
   * The three draws of a unit, those of the last record of its id: up to two
   * degrees of rise and one and a half of gradient to either side, and an offset
   * of up to eight hours. Losses and voltage are the record's.
   */
  lemma ParamsByDraws(w: World, i: nat) returns (j: nat)
    requires i < |w.fleet|
    ensures j < |w.fleet| && w.fleet[j].id == w.fleet[i].id && forall k :: j < k < |w.fleet| ==> w.fleet[k].id != w.fleet[i].id
    ensures var p, t := ParamsOf(w, i), w.fleet[j];
            && p.maxOilRise == OilRiseFor(t.cooling) + 4.0 * w.r(3 * j) - 2.0
            && p.windingGrad == WindingGradFor(t.cooling) + 3.0 * w.r(3 * j + 1) - 1.5
            && p.loadOffset == 8.0 * w.r(3 * j + 2)
            && p.ratedKV == t.hv
            && (t.noLoadLoss > 0.0 ==> Product(p.lossRatio, t.noLoadLoss) == t.loadLoss)
            && (t.noLoadLoss <= 0.0 ==> p.lossRatio == 8.0)
  {
    hide OilRiseFor, WindingGradFor;
    j := ParamsOfSource(w, i);
    if w.fleet[j].noLoadLoss > 0.0 {
      QuotientTimes(w.fleet[j].loadLoss, w.fleet[j].noLoadLoss);
    }
  }

  // ---- what a sample reports ----

  /** Loading takes two percent off the voltage. */
  lemma VoltageDroops(kv: real, load: real)
    ensures DeriveVoltage(kv, 100.0) == 0.98 * kv
    ensures load <= 0.0 ==> DeriveVoltage(kv, load) == kv
    ensures load >= 0.0 ==> kv - DeriveVoltage(kv, load) == Product(0.02 * kv, load / 100.0)
  {
  }

  /** The oil level: 96 percent, three more for each 100 degrees above the ambient, 0.4 to either side. */
  lemma LevelFollowsOil(oil: real, ambient: real, draw: real)
    requires 0.0 <= draw < 1.0
    ensures var level := 96.0 + 0.03 * (oil - ambient);
            && (85.4 <= level <= 99.4 ==> level - 0.4 <= OilLevel(oil, ambient, draw) <= level + 0.4)
            && (85.4 <= level <= 99.4 && draw == 0.5 ==> OilLevel(oil, ambient, draw) == level)
  {
  }

  /** `x` to one decimal. */
  predicate Reports(field: real, x: real)
  {
    x - 0.05 <= field <= x + 0.05
  }

  /** Each field of a sample reports its own quantity of the tick, to one decimal; the state is that of the tick. */
  lemma SampleSays(w: World, n: nat, i: nat)
    requires GoodWorld(w) && i < |w.fleet| && n > 0
    ensures var m, v, load := EmittedAt(w, n, i), UnitAt(w, n, i), LoadAt(w, n, i);
            && m.schemaVersion == 1 && m.transformerId == w.fleet[i].id && m.timestamp == w.clock.format(NowAt(w, n))
            && Reports(m.load, load) && Reports(m.ambient, AmbientAt(w.a, NowAt(w, n)))
            && Reports(m.oil, v.oil) && Reports(m.winding, v.winding)
            && Reports(m.oilLevel, OilLevelAt(w, n, i)) && Reports(m.current, CurrentAt(w, n, i))
            && Reports(m.voltage, VoltageAt(w, n, i))
            && m.state == ClassifyState(v.winding, v.oil, load)
  {
    hide Pass, LoadOf, Round1, DeriveCurrent, DeriveVoltage, OilLevel, AmbientAt, UnitAfter, OilAfter, WindingAfter;
    TickLeads(w, n, i);
    TickEquations(w, n, i);
    var m, v, load := EmittedAt(w, n, i), UnitAt(w, n, i), LoadAt(w, n, i);
    Round1Near(load);
    Round1Near(v.ambient);
    Round1Near(v.oil);
    Round1Near(v.winding);
    Round1Near(OilLevelAt(w, n, i));
    Round1Near(CurrentAt(w, n, i));
    Round1Near(VoltageAt(w, n, i));
  }
}
