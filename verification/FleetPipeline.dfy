// A generated fleet all the way: through its file, through the simulator and
// into the tables.
module FleetPipeline {
  import opened Decimal
  import opened Random
  import opened Rounding
  import opened Analysis
  import opened Measurement
  import opened Transformer
  import opened Physics
  import opened FleetDesign
  import opened FleetTheorems
  import opened Csv
  import opened CsvTheorems
  import opened Simulator
  import opened Envelope
  import opened Protocol
  import opened ProvenanceExact
  import opened Delivery
  import opened Stamps
  import opened EndToEnd

  // ---- the file ----

  lemma Round1HasDecimals(x: real)
    ensures HasDecimals(Round1(x), 1)
  {
    assert Pow10(1) == 10;
    assert ScaleUp(Round1(x), 1) == RoundHalfAway(x * 10.0) as real;
  }

  lemma Round2HasDecimals(x: real)
    ensures HasDecimals(Round2(x), 2)
  {
    assert Pow10(1) == 10 && Pow10(2) == 100;
    assert ScaleUp(Round2(x), 2) == RoundHalfAway(x * 100.0) as real;
  }

  lemma ClassInTenths(kv: real) returns (m: int)
    requires kv in [11.0, 13.8, 20.0, 34.5, 69.0, 115.0, 138.0, 230.0, 345.0, 500.0]
    ensures kv * 10.0 == m as real
  {
    m := if kv == 11.0 then 110 else if kv == 13.8 then 138 else if kv == 20.0 then 200 else if kv == 34.5 then 345
         else if kv == 69.0 then 690 else if kv == 115.0 then 1150 else if kv == 138.0 then 1380
         else if kv == 230.0 then 2300 else if kv == 345.0 then 3450 else 5000;
  }

  lemma ClassHasDecimals(app: nat, kv: real)
    requires app < 5 && (kv in ENVELOPES[app].hvs || kv in ENVELOPES[app].lvs)
    ensures HasDecimals(kv, 1)
  {
    hide HasDecimals;
    var m := ClassInTenths(kv);
    assert ScaleUp(kv, 1) == kv * 10.0 by {
      assert Pow10(1) == 10;
    }
    WholeHasDecimals(kv, m, 1);
  }

  lemma RecordIsPrintable(a: Analysis, id: string, s: Sketch, f: real, p: real, g: real, z: real, cooling: string, y: real,
                          n: real, l: real, m: real, x: real, w: real, h: real)
    requires Lawful(a) && s.app < 5 && Respects(ENVELOPES[s.app], s)
    requires 0.0 <= g < 1.0 && 0.0 <= y < 1.0
    ensures Printable(RecordFrom(a, id, s, f, p, g, z, cooling, y, n, l, m, x, w, h))
  {
    hide Round1, Round2, HasDecimals, ImpedanceFrom, YearFrom, MassFrom, SizeFrom, Between, Product, Oversized;
    YearBounds(a, y);
    Round1HasDecimals(s.mva);
    ClassHasDecimals(s.app, s.hv);
    ClassHasDecimals(s.app, s.lv);
    Round1HasDecimals(ImpedanceFrom(a, s.mva, z));
    Round1HasDecimals(Product(s.mva * 1000.0, Between(n, 0.0008, 0.0016)));
    Round1HasDecimals(Product(s.mva * 1000.0, Between(l, 0.006, 0.012)));
    Round1HasDecimals(MassFrom(a, s.mva, m));
    Round2HasDecimals(SizeFrom(a, s.mva, 1.8, 0.5, x));
    Round2HasDecimals(SizeFrom(a, s.mva, 1.4, 0.3, w));
    Round2HasDecimals(SizeFrom(a, s.mva, 2.6, 0.25, h));
  }

  lemma EveryRecordIsPrintable(a: Analysis, r: nat -> real, k: nat, n: nat)
    requires Lawful(a) && UnitStream(r)
    ensures Printable(RecordAt(a, r, k, n))
  {
    hide Printable, RecordFrom, Respects, CoolingFrom, CoolingDraws, IdFor;
    var s := SketchAt(a, r, k);
    var j := k + 8 + CoolingDraws(s.mva);
    SketchInEnvelope(a, r, k);
    RecordAtIs(a, r, k, n, s, j);
    RecordIsPrintable(a, IdFor(n), s, DrawAt(r, k + 4), DrawAt(r, k + 5), DrawAt(r, k + 6), DrawAt(r, k + 7),
                      CoolingFrom(s.mva, DrawAt(r, k + 8)), DrawAt(r, j), DrawAt(r, j + 1), DrawAt(r, j + 2),
                      DrawAt(r, j + 3), DrawAt(r, j + 4), DrawAt(r, j + 5), DrawAt(r, j + 6));
  }

  /** The file written for a generated fleet is read back as that fleet. */
  lemma GeneratedFileReadsBack(a: Analysis, r: nat -> real, k: nat, n: nat)
    requires Lawful(a) && UnitStream(r) && n < 1000
    ensures Load(Rendered(FleetOf(a, r, k, n))) == Good(FleetOf(a, r, k, n))
  {
    hide Load, Rendered, Valid, Printable, Plausible, RecordAt, PositionAfter;
    EveryFleet(a, r, k, n);
    var fleet := FleetOf(a, r, k, n);
    forall i | 0 <= i < n ensures Printable(fleet[i]) {
      EveryRecordIsPrintable(a, r, PositionAfter(a, r, k, i), i + 1);
    }
    RoundTripExactly(fleet);
  }

  // ---- the run ----

  lemma PlausibleIsPlain(t: Transformer)
    requires Plausible(t)
    ensures LossRatioOf(t) >= 3.7 && 0.0 <= t.ratedPower <= 10_000.0 && 0.1 <= t.hv <= 900_000.0
  {
    hide Oversized, LossRatioOf;
    var i :| 0 <= i < 5 && VALID_APPLICATIONS[i] == t.application && WithinEnvelope(ENVELOPES[i], t);
    EnvelopesAreSound(i);
  }

  /** The service and the simulator as deployed together, for `n` ticks of a registered fleet. */
  ghost predicate Wired(cfg: Config, w: World, n: nat)
  {
    && Deployed(cfg) && w.clock == cfg.db.clock && Lawful(w.a) && UnitStream(w.r)
    && 1.0 <= w.intensity <= TOP_INTENSITY
    && w.fleet != [] && (forall i :: 0 <= i < |w.fleet| ==> w.fleet[i].id in cfg.validator.registry)
    && w.interval >= NANOS && Elapsed(w, n) <= cfg.validator.maxSkew
    && InCalendar(w.start) && InCalendar(w.start + Elapsed(w, n))
  }

  lemma GeneratedFits(cfg: Config, w: World, n: nat, a: Analysis, r: nat -> real, k: nat)
    requires Wired(cfg, w, n) && Lawful(a) && UnitStream(r) && |w.fleet| < 1000 && w.fleet == FleetOf(a, r, k, |w.fleet|)
    ensures Fits(cfg, w, n) && ReportsClean(w, n)
  {
    hide Plausible, RecordAt, PositionAfter, FleetOf, Elapsed, CleanSample, Validate, LossRatioOf;
    EveryFleet(a, r, k, |w.fleet|);
    forall i | 0 <= i < |w.fleet|
      ensures MatchesId(w.fleet[i].id) && LossRatioOf(w.fleet[i]) >= 3.7
      ensures 0.0 <= w.fleet[i].ratedPower <= 10_000.0 && 0.1 <= w.fleet[i].hv <= 900_000.0
    {
      PlausibleIsPlain(w.fleet[i]);
      ValidHasId(w.fleet[i]);
    }
    SteepFleetIsClean(w, n);
  }

  lemma ValidHasId(t: Transformer)
    requires Valid(t)
    ensures MatchesId(t.id)
  {
  }

  /**
   * Generated, simulated at any intensity from the default to the deployed one, and
   * delivered at least once: every sample of every tick is stored exactly once.
   */
  lemma GeneratedFleetArrives(cfg: Config, w: World, n: nat, a: Analysis, r: nat -> real, k: nat, run: seq<Label>)
    requires Wired(cfg, w, n) && Lawful(a) && UnitStream(r) && |w.fleet| < 1000 && w.fleet == FleetOf(a, r, k, |w.fleet|)
    requires Calm(Published(w, n), w.start, run) && Drained(Published(w, n), run, Exec(cfg, Init(EMPTY_TABLES), run))
    ensures var s := Exec(cfg, Init(EMPTY_TABLES), run);
            && s.counters.rejected == 0 && s.counters.storeErrors == 0
            && s.counters.accepted == |TablesOf(s).raw| == |TablesOf(s).meas| == n * |w.fleet|
            && s.counters.duplicates == Deliveries(run) - n * |w.fleet|
  {
    hide FleetOf, Published, Deployed;
    GeneratedFits(cfg, w, n, a, r, k);
    RunArrivesOnce(cfg, w, n, run);
  }
}
