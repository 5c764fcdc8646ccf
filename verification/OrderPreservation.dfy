// Two runs that differ in load intensity alone stay ordered, tick by tick and
// reading by reading, before and after rounding.
module OrderPreservation {
  import opened Rounding
  import opened Random
  import opened Analysis
  import opened Measurement
  import opened Transformer
  import opened Physics
  import opened Simulator
  import opened ThermalLag
  import opened StepBounds

  /** Two worlds that differ in their load intensity alone. */
  ghost predicate Alike(w: World, h: World)
  {
    && h.a == w.a && h.clock == w.clock && h.r == w.r && h.interval == w.interval
    && h.fleet == w.fleet && h.start == w.start
  }

  // ---- what does not depend on the intensity ----

  /** The number of draws taken is a function of the fleet size and the tick alone. */
  lemma {:induction false} DrawsAreLinear(w: World, n: nat)
    ensures DrawsBefore(w, n) == 3 * |w.fleet| + n * (2 * |w.fleet|)
  {
    if n > 0 {
      DrawsAreLinear(w, n - 1);
      assert n * (2 * |w.fleet|) == (n - 1) * (2 * |w.fleet|) + 2 * |w.fleet|;
    }
  }

  lemma SameDraws(w: World, h: World, n: nat)
    requires Alike(w, h)
    ensures DrawsBefore(h, n) == DrawsBefore(w, n)
    ensures NowAt(h, n) == NowAt(w, n)
  {
    DrawsAreLinear(w, n);
    DrawsAreLinear(h, n);
    NowIsLinear(w, n);
    NowIsLinear(h, n);
  }

  lemma {:induction false} SameTable(w: World, h: World, n: nat)
    requires Alike(w, h) && n <= |w.fleet|
    ensures ParamTable(h, n) == ParamTable(w, n)
  {
    if n > 0 {
      SameTable(w, h, n - 1);
      assert ParamsAt(h, n - 1) == ParamsAt(w, n - 1);
    }
  }

  lemma SameParams(w: World, h: World, i: nat)
    requires Alike(w, h) && i < |w.fleet|
    ensures ParamsOf(h, i) == ParamsOf(w, i)
  {
    SameTable(w, h, |w.fleet|);
  }

  // ---- one step ----

  predicate Below(u: Unit, v: Unit)
  {
    u.oil <= v.oil && u.winding <= v.winding && u.ambient == v.ambient
  }

  lemma OilOrdered(a: Analysis, dt: real, p: Params, u: Unit, v: Unit, ambient: real, l1: real, l2: real)
    requires Lawful(a) && dt >= 0.0 && GoodParams(p) && p.maxOilRise >= 0.0 && Below(u, v) && 0.0 < l1 <= l2
    ensures OilAfter(a, dt, p, u, ambient, l1) <= OilAfter(a, dt, p, v, ambient, l2)
  {
    OilTargetMonotone(a, ambient, l1 / 100.0, l2 / 100.0, p);
    DecayBounds(a, dt, OIL_TIME_CONSTANT);
    LagMonotone(u.oil, v.oil, TopOilSteady(a, ambient, l1 / 100.0, p.lossRatio, p.maxOilRise),
                TopOilSteady(a, ambient, l2 / 100.0, p.lossRatio, p.maxOilRise), Decay(a, dt, OIL_TIME_CONSTANT));
  }

  lemma WindingOrdered(a: Analysis, dt: real, p: Params, u: Unit, v: Unit, o1: real, o2: real, l1: real, l2: real)
    requires Lawful(a) && dt >= 0.0 && p.windingGrad >= 0.0 && Below(u, v) && o1 <= o2 && 0.0 < l1 <= l2
    ensures WindingAfter(a, dt, p, u, o1, l1) <= WindingAfter(a, dt, p, v, o2, l2)
  {
    WindingTargetMonotone(a, o1, o2, l1 / 100.0, l2 / 100.0, p.windingGrad);
    DecayBounds(a, dt, WINDING_TIME_CONSTANT);
    LagMonotone(u.winding, v.winding, WindingSteady(a, o1, l1 / 100.0, p.windingGrad),
                WindingSteady(a, o2, l2 / 100.0, p.windingGrad), Decay(a, dt, WINDING_TIME_CONSTANT));
  }

  lemma StepOrdered(a: Analysis, dt: real, p: Params, u: Unit, v: Unit, ambient: real, l1: real, l2: real)
    requires Lawful(a) && dt >= 0.0 && GoodParams(p) && p.maxOilRise >= 0.0 && p.windingGrad >= 0.0
    requires Below(u, v) && 0.0 < l1 <= l2
    ensures Below(UnitAfter(a, dt, p, u, ambient, l1), UnitAfter(a, dt, p, v, ambient, l2))
  {
    OilOrdered(a, dt, p, u, v, ambient, l1, l2);
    WindingOrdered(a, dt, p, u, v, OilAfter(a, dt, p, u, ambient, l1), OilAfter(a, dt, p, v, ambient, l2), l1, l2);
  }

  // ---- readings ----

  predicate SampleBelow(m: Measurement, h: Measurement)
  {
    && m.schemaVersion == h.schemaVersion && m.transformerId == h.transformerId && m.timestamp == h.timestamp
    && m.ambient == h.ambient
    && m.load <= h.load && m.oil <= h.oil && m.winding <= h.winding
    && m.oilLevel <= h.oilLevel && m.current <= h.current
    && m.voltage >= h.voltage
    && Severity(m.state) <= Severity(h.state)
  }

  lemma CurrentMonotone(a: Analysis, l1: real, l2: real, ratedPower: real, kv: real)
    requires Lawful(a) && l1 <= l2 && ratedPower >= 0.0
    ensures DeriveCurrent(a, l1, ratedPower, kv) <= DeriveCurrent(a, l2, ratedPower, kv)
  {
    var base := Product(a.sqrt(3.0), kv * 1000.0);
    ProductMonotone(l1 / 100.0, l2 / 100.0, ratedPower * 1_000_000.0);
    if base > 0.0 {
      QuotientMonotone(Product(ratedPower * 1_000_000.0, l1 / 100.0), Product(ratedPower * 1_000_000.0, l2 / 100.0), base);
    }
  }

  lemma VoltageAntitone(kv: real, l1: real, l2: real)
    requires kv >= 0.0 && l1 <= l2
    ensures DeriveVoltage(kv, l1) >= DeriveVoltage(kv, l2)
  {
    var d1 := if l1 > 0.0 then 0.02 * l1 / 100.0 else 0.0;
    var d2 := if l2 > 0.0 then 0.02 * l2 / 100.0 else 0.0;
    ProductMonotone(1.0 - d2, 1.0 - d1, kv);
  }

  lemma SeverityMonotone(u: Unit, v: Unit, l1: real, l2: real)
    requires Below(u, v) && l1 <= l2
    ensures Severity(ClassifyState(u.winding, u.oil, l1)) <= Severity(ClassifyState(v.winding, v.oil, l2))
  {
    ClassifiedSeverity(u.winding, u.oil, l1);
    ClassifiedSeverity(v.winding, v.oil, l2);
  }

  lemma ReadingsOrdered(a: Analysis, c: Clock, now: Instant, t: Transformer, p: Params, u: Unit, v: Unit, l1: real, l2: real, draw: real)
    requires Lawful(a) && Below(u, v) && l1 <= l2 && t.ratedPower >= 0.0 && p.ratedKV >= 0.0
    ensures SampleBelow(Emit(a, c, now, t, p, u, l1, draw), Emit(a, c, now, t, p, v, l2, draw))
  {
    CurrentMonotone(a, l1, l2, t.ratedPower, p.ratedKV);
    VoltageAntitone(p.ratedKV, l1, l2);
    SeverityMonotone(u, v, l1, l2);
    Round1Monotone(l1, l2);
    Round1Monotone(u.oil, v.oil);
    Round1Monotone(u.winding, v.winding);
    Round1Monotone(OilLevel(u.oil, u.ambient, draw), OilLevel(v.oil, v.ambient, draw));
    Round1Monotone(DeriveCurrent(a, l1, t.ratedPower, p.ratedKV), DeriveCurrent(a, l2, t.ratedPower, p.ratedKV));
    Round1Monotone(DeriveVoltage(p.ratedKV, l2), DeriveVoltage(p.ratedKV, l1));
  }

  // ---- one pass of the loop ----

  /** What a pass needs of its input. */
  ghost predicate SoundInput(x: PassInput)
  {
    && GoodParams(x.p) && x.p.maxOilRise >= 0.0 && x.p.windingGrad >= 0.0 && x.p.ratedKV >= 0.0
    && 21.0 <= x.u.ambient <= 31.0 && 0.0 <= x.d < 1.0
  }

  /** The same input met by a unit that runs hotter. */
  ghost predicate Hotter(x: PassInput, y: PassInput)
  {
    y == x.(u := y.u) && Below(x.u, y.u)
  }

  lemma PassLoads(w: World, h: World, x: PassInput, y: PassInput)
    requires Lawful(w.a) && Alike(w, h) && 0.0 < w.intensity <= h.intensity && SoundInput(x) && Hotter(x, y)
    ensures 5.0 <= LoadOf(w, x) <= LoadOf(h, y)
  {
    LoadMonotone(w.a, w.intensity, h.intensity, x.now, x.p.loadOffset, x.u.ambient, x.d);
    LoadBounds(w.a, w.intensity, x.now, x.p.loadOffset, x.u.ambient, x.d);
  }

  lemma PassOrdered(w: World, h: World, t: Transformer, x: PassInput, y: PassInput)
    requires Lawful(w.a) && w.interval > 0 && Alike(w, h) && 0.0 < w.intensity <= h.intensity && t.ratedPower >= 0.0
    requires SoundInput(x) && Hotter(x, y)
    ensures Below(Pass(w, t, x).unit, Pass(h, t, y).unit)
    ensures SampleBelow(Pass(w, t, x).m, Pass(h, t, y).m)
  {
    var l1, l2 := LoadOf(w, x), LoadOf(h, y);
    var ambient := AmbientAt(w.a, x.now);
    PassLoads(w, h, x, y);
    StepOrdered(w.a, Dt(w), x.p, x.u, y.u, ambient, l1, l2);
    ReadingsOrdered(w.a, w.clock, x.now, t, x.p, UnitAfter(w.a, Dt(w), x.p, x.u, ambient, l1),
                    UnitAfter(w.a, Dt(w), x.p, y.u, ambient, l2), l1, l2, x.e);
  }

  // ---- whole runs ----

  ghost predicate RatedFleet(w: World)
  {
    forall i :: 0 <= i < |w.fleet| ==> w.fleet[i].ratedPower >= 0.0 && w.fleet[i].hv >= 0.0
  }

  lemma AmbientAlways(w: World, n: nat, i: nat)
    requires GoodWorld(w) && Lawful(w.a) && i < |w.fleet|
    ensures 21.0 <= UnitAt(w, n, i).ambient <= 31.0
  {
    AmbientBounds(w.a, NowAt(w, n));
  }

  lemma InputIsSound(w: World, n: nat, i: nat) returns (x: PassInput)
    requires GoodWorld(w) && SoundLosses(w) && Lawful(w.a) && UnitStream(w.r) && RatedFleet(w) && i < |w.fleet| && n > 0
    ensures x == InputAt(w, n, i) && SoundInput(x) && x.u == UnitAt(w, n - 1, i)
    ensures x == InputWith(NowAt(w, n), ParamsOf(w, i), x.u, w.r, DrawsBefore(w, n - 1) + 2 * i)
  {
    hide Pass, Product, LoadOf, Lawful, UnitAt;
    ParamBounds(w, i);
    AmbientAlways(w, n - 1, i);
    var _ := ParamsOfSource(w, i);
    var k := DrawsBefore(w, n - 1) + 2 * i;
    assert 0.0 <= DrawAt(w.r, k) < 1.0;
    hide DrawsBefore;
    x := InputIs(w, n, i, NowAt(w, n), ParamsOf(w, i), UnitAt(w, n - 1, i), k);
  }

  ghost predicate Comparable(w: World, h: World)
  {
    GoodWorld(w) && SoundLosses(w) && Lawful(w.a) && UnitStream(w.r) && RatedFleet(w) && Alike(w, h) && 0.0 < w.intensity <= h.intensity
  }

  lemma InitiallyEqual(w: World, h: World, i: nat)
    requires Alike(w, h) && GoodWorld(w) && i < |w.fleet|
    ensures UnitAt(h, 0, i) == UnitAt(w, 0, i)
  {
  }

  /** Both runs meet the same time, parameters and draws. */
  lemma SameInput(w: World, h: World, n: nat, i: nat) returns (x: PassInput, y: PassInput)
    requires Comparable(w, h) && i < |w.fleet| && n > 0
    ensures x == InputAt(w, n, i) && y == InputAt(h, n, i)
    ensures SoundInput(x) && y == x.(u := y.u)
    ensures x.u == UnitAt(w, n - 1, i) && y.u == UnitAt(h, n - 1, i)
  {
    hide Pass, Product, LoadOf;
    SameDraws(w, h, n);
    SameDraws(w, h, n - 1);
    SameParams(w, h, i);
    x := InputIsSound(w, n, i);
    y := InputIsSound(h, n, i);
  }

  /** Every unit of the harder run is at least as hot at every tick. */
  lemma {:induction false} RunsOrdered(w: World, h: World, n: nat, i: nat)
    requires Comparable(w, h) && i < |w.fleet|
    ensures Below(UnitAt(w, n, i), UnitAt(h, n, i))
  {
    hide Pass, Product, LoadOf;
    if n == 0 {
      InitiallyEqual(w, h, i);
    } else {
      RunsOrdered(w, h, n - 1, i);
      var x, y := SameInput(w, h, n, i);
      PassOrdered(w, h, w.fleet[i], x, y);
    }
  }

  /** Every sample of the harder run reports at least as much of everything, and no more voltage. */
  lemma SamplesOrdered(w: World, h: World, n: nat, i: nat)
    requires Comparable(w, h) && i < |w.fleet| && n > 0
    ensures SampleBelow(EmittedAt(w, n, i), EmittedAt(h, n, i))
  {
    hide Pass, Product, LoadOf;
    RunsOrdered(w, h, n - 1, i);
    var x, y := SameInput(w, h, n, i);
    PassOrdered(w, h, w.fleet[i], x, y);
  }

  /** So does the load before rounding. */
  lemma LoadsOrdered(w: World, h: World, n: nat, i: nat)
    requires Comparable(w, h) && i < |w.fleet| && n > 0
    ensures LoadAt(w, n, i) <= LoadAt(h, n, i)
  {
    hide Pass, Product, LoadOf;
    RunsOrdered(w, h, n - 1, i);
    var x, y := SameInput(w, h, n, i);
    PassLoads(w, h, x, y);
  }

  /** Current, oil level and voltage before rounding, as tick `n` derives them. */
  ghost function CurrentAt(w: World, n: nat, i: nat): real
    requires GoodWorld(w) && i < |w.fleet| && n > 0
  {
    DeriveCurrent(w.a, LoadAt(w, n, i), w.fleet[i].ratedPower, ParamsOf(w, i).ratedKV)
  }

  ghost function OilLevelAt(w: World, n: nat, i: nat): real
    requires GoodWorld(w) && i < |w.fleet| && n > 0
  {
    OilLevel(UnitAt(w, n, i).oil, UnitAt(w, n, i).ambient, DrawAt(w.r, DrawIndex(w, n, i) + 1))
  }

  ghost function VoltageAt(w: World, n: nat, i: nat): real
    requires GoodWorld(w) && i < |w.fleet| && n > 0
  {
    DeriveVoltage(ParamsOf(w, i).ratedKV, LoadAt(w, n, i))
  }

  /** These are what the sample rounds. */
  lemma SampleRounds(w: World, n: nat, i: nat)
    requires GoodWorld(w) && i < |w.fleet| && n > 0
    ensures var m := EmittedAt(w, n, i);
            && m.load == Round1(LoadAt(w, n, i)) && m.current == Round1(CurrentAt(w, n, i))
            && m.oilLevel == Round1(OilLevelAt(w, n, i)) && m.voltage == Round1(VoltageAt(w, n, i))
  {
    hide Pass, LoadOf, Round1, DeriveCurrent, DeriveVoltage, OilLevel;
    TickEquations(w, n, i);
  }

  /** The derived quantities of the harder run, before rounding. */
  lemma DerivedOrdered(w: World, h: World, n: nat, i: nat)
    requires Comparable(w, h) && i < |w.fleet| && n > 0
    ensures CurrentAt(w, n, i) <= CurrentAt(h, n, i)
    ensures OilLevelAt(w, n, i) <= OilLevelAt(h, n, i)
    ensures VoltageAt(w, n, i) >= VoltageAt(h, n, i)
  {
    hide Pass, LoadOf, DeriveCurrent, DeriveVoltage;
    LoadsOrdered(w, h, n, i);
    RunsOrdered(w, h, n, i);
    SameDraws(w, h, n - 1);
    SameParams(w, h, i);
    var j := ParamsOfSource(w, i);
    CurrentMonotone(w.a, LoadAt(w, n, i), LoadAt(h, n, i), w.fleet[i].ratedPower, ParamsOf(w, i).ratedKV);
    VoltageAntitone(ParamsOf(w, i).ratedKV, LoadAt(w, n, i), LoadAt(h, n, i));
  }
}
