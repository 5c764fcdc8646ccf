// A family of valid fleets whose first sample never clears the winding check.
module GapFleets {
  import opened Wrappers
  import opened Random
  import opened Rounding
  import opened Analysis
  import opened Measurement
  import opened Json
  import opened Transformer
  import opened Physics
  import opened Simulator
  import opened ThermalLag
  import opened StepBounds
  import opened Envelope
  import opened WindingGap
  import opened Validation

  // ---- no load losses, light load: the first sample is refused ----

  /** Directed-flow units whose losses do not depend on the load, run almost idle in seven-minute steps. */
  ghost predicate FlatAndIdle(w: World)
  {
    && GoodWorld(w) && Lawful(w.a) && UnitStream(w.r)
    && 0.0 < w.intensity <= 0.04
    && w.interval == 420 * NANOS
    && forall i :: 0 <= i < |w.fleet| ==>
        w.fleet[i].cooling == ODAF && w.fleet[i].loadLoss == 0.0 && w.fleet[i].noLoadLoss > 0.0
  }

  lemma FlatParams(w: World, i: nat)
    requires FlatAndIdle(w) && i < |w.fleet|
    ensures ParamsOf(w, i).lossRatio == 0.0
    ensures ParamsOf(w, i).maxOilRise >= 58.0 && 0.0 <= ParamsOf(w, i).windingGrad <= 13.5
  {
    var j := ParamsOfSource(w, i);
    assert |ODAF| == 4;
    QuotientSign(0.0, w.fleet[j].noLoadLoss);
    assert 0.0 <= DrawAt(w.r, 3 * j) < 1.0 && 0.0 <= DrawAt(w.r, 3 * j + 1) < 1.0;
  }

  lemma RootBound(a: Analysis, x: real, y: real, b: real)
    requires Lawful(a) && 0.0 <= x <= Product(y, y) && y >= 0.0 && a.pow08(y) <= b
    ensures 0.0 <= a.pow08(x) <= Product(b, b)
  {
    Pow08Product(a, y, y);
    ProductLe(a.pow08(y), b, a.pow08(y), b);
  }

  lemma IdlePower(a: Analysis)
    requires Lawful(a)
    ensures 0.0 <= a.pow08(Square(0.05)) <= 0.0208
  {
    PowerBelow(a, 0.224, 0.224);
    RootBound(a, 0.05, 0.224, 0.3793);
    RootBound(a, Square(0.05), 0.05, 0.14387);
  }

  lemma SquaredDecay(a: Analysis, x: real, half: real, b: real)
    requires Lawful(a) && x == 2.0 * half && a.exp(half) >= b >= 0.0
    ensures a.exp(x) >= Product(b, b)
  {
    ExpAdd(a, half, half, x);
    ProductLe(b, a.exp(half), b, a.exp(half));
  }

  /** The decay factors of a step of one winding time constant. */
  lemma SevenMinutes(a: Analysis)
    requires Lawful(a)
    ensures 0.31 <= Decay(a, 420.0, WINDING_TIME_CONSTANT) <= 1.0
    ensures 1.0 - Decay(a, 420.0, OIL_TIME_CONSTANT) >= 0.07
  {
    SquaredDecay(a, -0.5, -0.25, 0.75);
    SquaredDecay(a, -1.0, -0.5, 0.5625);
    DecayBounds(a, 420.0, WINDING_TIME_CONSTANT);
    var x := Quotient(420.0, OIL_TIME_CONSTANT);
    assert x == RATIO;
    ExpTangents(a, x);
    assert Product(x, a.exp(-x)) == x * a.exp(-x);
    assert Quotient(420.0, WINDING_TIME_CONSTANT) == 1.0;
  }

  lemma FirstGap(oil: real, target: real, gradient: real, qo: real, qw: real)
    requires target - oil >= 48.0 && 0.0 <= gradient <= 0.2808
    requires 0.31 <= qw <= 1.0 && 1.0 - qo >= 0.07
    ensures var next := Lag(oil, target, qo); Lag(oil, next + gradient, qw) <= next - 0.7
  {
    GapAfter(oil, oil, target, gradient, qo, qw);
    ProductLe(0.07, 1.0 - qo, 0.31, qw);
    ProductLe(48.0, target - oil, 0.0217, Product(1.0 - qo, qw));
    ProductLe(gradient, 0.2808, 1.0 - qw, 0.69);
    assert Product(0.0, qw) == 0.0;
  }

  lemma IdleStep(w: World, t: Transformer, x: PassInput)
    requires Lawful(w.a) && Dt(w) == 420.0 && LoadOf(w, x) == 5.0
    requires x.p.lossRatio == 0.0 && x.p.maxOilRise >= 58.0 && 0.0 <= x.p.windingGrad <= 13.5
    requires x.u.oil == x.u.winding <= 31.0
    ensures Pass(w, t, x).unit.winding <= Pass(w, t, x).unit.oil - 0.7
  {
    AmbientBounds(w.a, x.now);
    IdlePower(w.a);
    SevenMinutes(w.a);
    assert LossFactor(0.05, 0.0) == 1.0;
    var target := TopOilSteady(w.a, AmbientAt(w.a, x.now), 0.05, 0.0, x.p.maxOilRise);
    assert Product(x.p.maxOilRise, 1.0) == x.p.maxOilRise;
    ProductLe(x.p.windingGrad, 13.5, w.a.pow08(Square(0.05)), 0.0208);
    FirstGap(x.u.oil, target, Product(x.p.windingGrad, w.a.pow08(Square(0.05))),
             Decay(w.a, 420.0, OIL_TIME_CONSTANT), Decay(w.a, 420.0, WINDING_TIME_CONSTANT));
  }

  lemma IdleLoad(w: World, n: nat, i: nat)
    requires FlatAndIdle(w) && i < |w.fleet| && n > 0 && 21.0 <= UnitAt(w, n - 1, i).ambient <= 31.0
    ensures LoadAt(w, n, i) == 5.0
  {
    TickEquations(w, n, i);
    var draw := DrawAt(w.r, DrawIndex(w, n, i));
    assert 0.0 <= draw < 1.0;
    LoadBounds(w.a, w.intensity, NowAt(w, n), ParamsOf(w, i).loadOffset, UnitAt(w, n - 1, i).ambient, draw);
  }

  /** Whatever the random source and the start: the first sample of such a unit breaks the winding check. */
  lemma FlatFleetIsRefused(w: World, n: nat, i: nat)
    requires FlatAndIdle(w) && i < |w.fleet| && n == 1
    ensures !WindingClearsOil(EmittedAt(w, n, i))
  {
    AmbientBounds(w.a, NowAt(w, 0));
    IdleLoad(w, n, i);
    FlatParams(w, i);
    TickEquations(w, n, i);
    IdleStep(w, w.fleet[i], InputAt(w, n, i));
    Round1Near(UnitAt(w, n, i).winding);
    Round1Near(UnitAt(w, n, i).oil);
  }

  /** Such a record passes the validation of design records. */
  lemma FlatRecordIsValid() returns (t: Transformer)
    ensures Valid(t) && t.cooling == ODAF && t.loadLoss == 0.0 && t.noLoadLoss > 0.0 && t.hv >= 0.1 && t.ratedPower >= 0.0
  {
    t := Transformer("TR-001", 100.0, 230.0, 69.0, 60, 3, "YNd11", 10.0, ODAF, 2020, "transmission",
                     50.0, 0.0, 100.0, 5.0, 4.0, 4.0);
  }

  /** The validator names the winding, although the unit is registered, on time and within every range. */
  lemma FlatFleetIsRejected(w: World, n: nat, i: nat, v: Validator, now: Instant)
    requires FlatAndIdle(w) && PoweredFleet(w) && i < |w.fleet| && n == 1
    requires forall j :: 0 <= j < |w.fleet| ==> w.fleet[j].hv >= 0.1
    requires w.fleet[i].id in v.registry
    requires w.clock.parse(w.clock.format(NowAt(w, n))).Some?
    requires w.clock.parse(w.clock.format(NowAt(w, n))).value <= now + v.maxSkew
    ensures Validation.Validate(w.clock, v, now, Some(EncodeMeasurement(EmittedAt(w, n, i)))) == Err(RangeViolation(WindingTemperature))
  {
    FlatFleetIsRefused(w, n, i);
    EmittedInRanges(w, n, i);
    TickEquations(w, n, i);
    MeasurementRoundTrip(EmittedAt(w, n, i));
    OutOfLine(w.clock, v, now, EmittedAt(w, n, i));
  }

  lemma OutOfLine(c: Clock, v: Validator, now: Instant, m: Measurement)
    requires m.schemaVersion == SCHEMA_VERSION && m.transformerId in v.registry
    requires c.parse(m.timestamp).Some? && c.parse(m.timestamp).value <= now + v.maxSkew
    requires InRanges(m) && !WindingClearsOil(m) && DecodeMeasurement(EncodeMeasurement(m)) == Some(m)
    ensures Validation.Validate(c, v, now, Some(EncodeMeasurement(m))) == Err(RangeViolation(WindingTemperature))
  {
    hide EncodeMeasurement, DecodeMeasurement;
  }
}
