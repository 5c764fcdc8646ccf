// Every temperature, load and reading of a run stays inside a numeric envelope,
// whatever the random source, the interval and the length of the run.
module Envelope {
  import opened Rounding
  import opened Random
  import opened Analysis
  import opened Measurement
  import opened Transformer
  import opened Physics
  import opened Simulator
  import opened ThermalLag
  import opened StepBounds
  import Validation

  const TOP_INTENSITY := 1.3

  predicate InEnvelope(u: Unit)
  {
    && 21.0 <= u.oil <= 149.8
    && 21.0 <= u.winding <= 191.0
    && 21.0 <= u.ambient <= 31.0
  }

  /** A world whose intensity is what the simulator runs with: positive, and at most `TOP_INTENSITY`. */
  ghost predicate Bounded(w: World)
  {
    GoodWorld(w) && SoundLosses(w) && Lawful(w.a) && UnitStream(w.r) && 0.0 < w.intensity <= TOP_INTENSITY
  }

  predicate RatedParams(p: Params)
  {
    && GoodParams(p)
    && 46.0 <= p.maxOilRise <= 62.0 && 10.5 <= p.windingGrad <= 21.5 && 0.0 <= p.loadOffset <= 8.0
  }

  lemma RatioSquared(load: real)
    requires 5.0 <= load <= 146.445
    ensures 0.0 < load / 100.0 && 0.0 <= Square(load / 100.0) <= 2.145
  {
    SquareMonotone(load / 100.0, 1.46445);
  }

  lemma OilStays(a: Analysis, dt: real, p: Params, u: Unit, ambient: real, load: real)
    requires Lawful(a) && dt >= 0.0 && RatedParams(p) && InEnvelope(u) && 21.0 <= ambient <= 31.0 && 5.0 <= load <= 146.445
    ensures 21.0 <= OilAfter(a, dt, p, u, ambient, load) <= 149.8
  {
    RatioSquared(load);
    OilTargetBounds(a, ambient, load / 100.0, p, 2.145);
    DecayBounds(a, dt, OIL_TIME_CONSTANT);
    LagWithin(u.oil, TopOilSteady(a, ambient, load / 100.0, p.lossRatio, p.maxOilRise),
              Decay(a, dt, OIL_TIME_CONSTANT), 21.0, 149.8);
  }

  lemma WindingStays(a: Analysis, dt: real, p: Params, u: Unit, oil: real, load: real)
    requires Lawful(a) && dt >= 0.0 && RatedParams(p) && InEnvelope(u) && 21.0 <= oil <= 149.8 && 5.0 <= load <= 146.445
    ensures 21.0 <= WindingAfter(a, dt, p, u, oil, load) <= 191.0
  {
    RatioSquared(load);
    WindingTargetBounds(a, oil, load / 100.0, p.windingGrad, 2.145);
    DecayBounds(a, dt, WINDING_TIME_CONSTANT);
    LagWithin(u.winding, WindingSteady(a, oil, load / 100.0, p.windingGrad),
              Decay(a, dt, WINDING_TIME_CONSTANT), 21.0, 191.0);
  }

  lemma BoundedLoad(w: World, n: nat, i: nat)
    requires Bounded(w) && i < |w.fleet| && n > 0 && InEnvelope(UnitAt(w, n - 1, i))
    ensures 5.0 <= LoadAt(w, n, i) <= 146.445
  {
    TickEquations(w, n, i);
    var ambient := UnitAt(w, n - 1, i).ambient;
    var draw := DrawAt(w.r, DrawIndex(w, n, i));
    assert 0.0 <= draw < 1.0;
    LoadBounds(w.a, w.intensity, NowAt(w, n), ParamsOf(w, i).loadOffset, ambient, draw);
  }

  /** Whole runs: no unit ever leaves the envelope. */
  lemma {:induction false} AlwaysInEnvelope(w: World, n: nat, i: nat)
    requires Bounded(w) && i < |w.fleet|
    ensures InEnvelope(UnitAt(w, n, i))
    ensures n > 0 ==> 5.0 <= LoadAt(w, n, i) <= 146.445
  {
    hide Pass, LoadOf, OilAfter, WindingAfter, Product;
    AmbientBounds(w.a, NowAt(w, n));
    if n > 0 {
      AlwaysInEnvelope(w, n - 1, i);
      BoundedLoad(w, n, i);
      ParamBounds(w, i);
      TickEquations(w, n, i);
      var u, ambient, load := UnitAt(w, n - 1, i), AmbientAt(w.a, NowAt(w, n)), LoadAt(w, n, i);
      OilStays(w.a, Dt(w), ParamsOf(w, i), u, ambient, load);
      WindingStays(w.a, Dt(w), ParamsOf(w, i), u, OilAfter(w.a, Dt(w), ParamsOf(w, i), u, ambient, load), load);
    }
  }

  // ---- the reported sample ----

  lemma LevelBounds(oil: real, ambient: real, draw: real)
    ensures 85.0 <= Round1(OilLevel(oil, ambient, draw)) <= 99.8
  {
    Round1Within(OilLevel(oil, ambient, draw), 850, 998);
  }

  lemma CurrentIsNonNegative(a: Analysis, load: real, ratedPower: real, kv: real)
    requires Lawful(a) && load >= 0.0 && ratedPower >= 0.0
    ensures Round1(DeriveCurrent(a, load, ratedPower, kv)) >= 0.0
  {
    var base := Product(a.sqrt(3.0), kv * 1000.0);
    ProductSigns(ratedPower * 1_000_000.0, load / 100.0);
    if base > 0.0 {
      QuotientSign(Product(ratedPower * 1_000_000.0, load / 100.0), base);
    }
    Round1Monotone(0.0, DeriveCurrent(a, load, ratedPower, kv));
  }

  lemma QuotientCancels(x: real, y: real)
    requires y != 0.0
    ensures Product(y, Quotient(x, y)) == x
  {
  }

  /** Three-phase apparent power: root three times voltage times current is the loaded share of the rating. */
  lemma CurrentCarriesPower(a: Analysis, load: real, ratedPower: real, kv: real)
    requires Lawful(a) && kv > 0.0
    ensures Product(Product(a.sqrt(3.0), kv * 1000.0), DeriveCurrent(a, load, ratedPower, kv))
            == Product(ratedPower * 1_000_000.0, load / 100.0)
  {
    var base := Product(a.sqrt(3.0), kv * 1000.0);
    assert a.sqrt(3.0) != 0.0 by {
      assert Product(a.sqrt(3.0), a.sqrt(3.0)) == 3.0;
    }
    ProductSigns(a.sqrt(3.0), kv * 1000.0);
    QuotientCancels(Product(ratedPower * 1_000_000.0, load / 100.0), base);
  }

  lemma VoltageRounds(v: real)
    ensures Round1(v) > 0.0 <==> v >= 0.05
  {
  }

  /** A unit's reported fields pass every range check but, on a rating too low to show, the voltage's. */
  lemma SampleInRangesExactly(a: Analysis, c: Clock, now: Instant, t: Transformer, p: Params, u: Unit, load: real, draw: real)
    requires Lawful(a) && InEnvelope(u) && 5.0 <= load <= 146.445 && t.ratedPower >= 0.0
    ensures Validation.InRanges(Emit(a, c, now, t, p, u, load, draw)) <==> DeriveVoltage(p.ratedKV, load) >= 0.05
    ensures KnownState(Emit(a, c, now, t, p, u, load, draw).state)
  {
    Round1Within(load, 50, 1465);
    Round1Within(u.ambient, 210, 310);
    Round1Within(u.oil, 210, 1498);
    Round1Within(u.winding, 210, 1910);
    LevelBounds(u.oil, u.ambient, draw);
    CurrentIsNonNegative(a, load, t.ratedPower, p.ratedKV);
    VoltageRounds(DeriveVoltage(p.ratedKV, load));
    ClassifiedSeverity(u.winding, u.oil, load);
  }

  /** The reported fields of every sample of every run, rounded as they are. */
  lemma ReportedEnvelope(w: World, n: nat, i: nat)
    requires Bounded(w) && i < |w.fleet| && n > 0
    ensures var m := EmittedAt(w, n, i);
            && 5.0 <= m.load <= 146.5 && 21.0 <= m.ambient <= 31.0
            && 21.0 <= m.oil <= 149.8 && 21.0 <= m.winding <= 191.0 && 85.0 <= m.oilLevel <= 99.8
  {
    hide Pass, LoadOf, ClassifyState, DeriveCurrent, DeriveVoltage, OilLevel, Round1;
    AlwaysInEnvelope(w, n, i);
    TickEquations(w, n, i);
    var u := UnitAt(w, n, i);
    Round1Within(LoadAt(w, n, i), 50, 1465);
    Round1Within(u.ambient, 210, 310);
    Round1Within(u.oil, 210, 1498);
    Round1Within(u.winding, 210, 1910);
    LevelBounds(u.oil, u.ambient, DrawAt(w.r, DrawIndex(w, n, i) + 1));
  }

  lemma VoltageShows(kv: real, load: real)
    requires kv >= 0.1 && 5.0 <= load <= 160.0
    ensures DeriveVoltage(kv, load) >= 0.05
  {
    var rest := 1.0 - 0.02 * load / 100.0;
    assert rest >= 0.9;
    ProductWithin(kv, 0.1, kv, rest, 0.9, rest);
  }

  lemma VoltageVanishes(kv: real, load: real)
    requires 0.0 < kv <= 0.05 && 5.0 <= load <= 160.0
    ensures DeriveVoltage(kv, load) < 0.05
  {
    var rest := 1.0 - 0.02 * load / 100.0;
    assert 0.0 < rest <= 0.999;
    ProductWithin(kv, 0.0, 0.05, rest, 0.0, 0.999);
  }

  ghost predicate PoweredFleet(w: World)
  {
    forall i :: 0 <= i < |w.fleet| ==> w.fleet[i].ratedPower >= 0.0
  }

  /** Every sample of every run: all range checks pass exactly when the drooped voltage rounds to a tenth. */
  lemma EmittedInRangesExactly(w: World, n: nat, i: nat)
    requires Bounded(w) && PoweredFleet(w) && i < |w.fleet| && n > 0
    ensures Validation.InRanges(EmittedAt(w, n, i)) <==> DeriveVoltage(ParamsOf(w, i).ratedKV, LoadAt(w, n, i)) >= 0.05
    ensures KnownState(EmittedAt(w, n, i).state)
  {
    AlwaysInEnvelope(w, n, i);
    TickEquations(w, n, i);
    SampleInRangesExactly(w.a, w.clock, NowAt(w, n), w.fleet[i], ParamsOf(w, i), UnitAt(w, n, i), LoadAt(w, n, i),
                          DrawAt(w.r, DrawIndex(w, n, i) + 1));
  }

  /** A fleet rated at 0.1 kV or more never reports a value out of range. */
  lemma EmittedInRanges(w: World, n: nat, i: nat)
    requires Bounded(w) && PoweredFleet(w) && i < |w.fleet| && n > 0
    requires forall j :: 0 <= j < |w.fleet| ==> w.fleet[j].hv >= 0.1
    ensures Validation.InRanges(EmittedAt(w, n, i)) && KnownState(EmittedAt(w, n, i).state)
  {
    EmittedInRangesExactly(w, n, i);
    AlwaysInEnvelope(w, n, i);
    var j := ParamsOfSource(w, i);
    VoltageShows(ParamsOf(w, i).ratedKV, LoadAt(w, n, i));
  }

  /** A rating of 0.05 kV is a valid record whose every sample reports a voltage of zero. */
  lemma LowRatingIsOutOfRange(w: World, n: nat, i: nat)
    requires Bounded(w) && PoweredFleet(w) && i < |w.fleet| && n > 0
    requires forall j :: 0 <= j < |w.fleet| ==> 0.0 < w.fleet[j].hv <= 0.05
    ensures !Validation.InRanges(EmittedAt(w, n, i))
  {
    EmittedInRangesExactly(w, n, i);
    AlwaysInEnvelope(w, n, i);
    var j := ParamsOfSource(w, i);
    VoltageVanishes(ParamsOf(w, i).ratedKV, LoadAt(w, n, i));
  }
}
