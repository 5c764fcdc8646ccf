// From the simulator's loop to the bronze tables: what an at-least-once delivery
// of a run's samples leaves behind.
module EndToEnd {
  import opened Wrappers
  import opened Sets
  import opened Rounding
  import opened Analysis
  import opened Measurement
  import opened Json
  import opened Topic
  import opened Transformer
  import opened Physics
  import opened Simulator
  import opened Stamps
  import opened StepBounds
  import opened Envelope
  import opened WindingGap
  import opened NominalGap
  import opened Validation
  import opened Storage
  import opened Protocol
  import opened ProtocolInvariant
  import opened TableProvenance
  import opened ProvenanceExact
  import opened Confluence
  import opened Delivery
  import opened Silver
  import opened SilverTheorems

  // ---- the published set ----

  /** The message the simulator publishes for a sample, and the sample itself. */
  function PublishedAs(m: Measurement): Admission
  {
    Admission(Message(TelemetryTopicFor(m.transformerId), Some(EncodeMeasurement(m))), m)
  }

  ghost function AdmissionAt(w: World, p: (nat, nat)): Admission
  {
    PublishedAs(if GoodWorld(w) && p.0 > 0 && p.1 < |w.fleet| then EmittedAt(w, p.0, p.1) else ZERO_MEASUREMENT)
  }

  /** The ticks 1 to `n` of units 0 to `k - 1`. */
  function Row(m: nat, k: nat): set<(nat, nat)>
  {
    if k == 0 then {} else Row(m, k - 1) + {(m, k - 1)}
  }

  function Grid(n: nat, k: nat): set<(nat, nat)>
  {
    if n == 0 then {} else Grid(n - 1, k) + Row(n, k)
  }

  lemma {:induction false} RowIs(m: nat, k: nat)
    ensures forall p: (nat, nat) :: p in Row(m, k) <==> p.0 == m && p.1 < k
  {
    if k > 0 {
      RowIs(m, k - 1);
    }
  }

  lemma {:induction false} GridIs(n: nat, k: nat)
    ensures forall p: (nat, nat) :: p in Grid(n, k) <==> 0 < p.0 <= n && p.1 < k
  {
    if n > 0 {
      GridIs(n - 1, k);
      RowIs(n, k);
    }
  }

  /** Everything a run of `n` ticks publishes. */
  ghost function Published(w: World, n: nat): set<Admission>
  {
    set p | p in Grid(n, |w.fleet|) :: AdmissionAt(w, p)
  }

  // ---- when the samples are welcome ----

  ghost predicate CleanSample(m: Measurement)
  {
    InRanges(m) && WindingClearsOil(m) && KnownState(m.state) && ChecksPass(RowOf(Normalize(m)))
  }

  ghost predicate ReportsClean(w: World, n: nat)
    requires GoodWorld(w)
  {
    forall m: nat, i: nat :: 0 < m <= n && i < |w.fleet| ==> CleanSample(EmittedAt(w, m, i))
  }

  /** A simulator and a service that fit together for `n` ticks. */
  ghost predicate Fits(cfg: Config, w: World, n: nat)
  {
    && Deployed(cfg) && GoodWorld(w) && w.clock == cfg.db.clock
    && (forall i :: 0 <= i < |w.fleet| ==> MatchesId(w.fleet[i].id) && w.fleet[i].id in cfg.validator.registry)
    && (forall i, j :: 0 <= i < j < |w.fleet| ==> w.fleet[i].id != w.fleet[j].id)
    && Elapsed(w, n) <= cfg.validator.maxSkew
    && InCalendar(w.start) && InCalendar(w.start + Elapsed(w, n))
  }

  lemma SampleIsWelcome(cfg: Config, m: Measurement, from: Instant, now: Instant)
    requires Deployed(cfg) && CleanSample(m) && MatchesId(m.transformerId) && m.transformerId in cfg.validator.registry
    requires m.timestamp == cfg.db.clock.format(now) && InCalendar(now) && m.schemaVersion == SCHEMA_VERSION
    requires now <= from + cfg.validator.maxSkew
    ensures Genuine(cfg, PublishedAs(m)) && InstantOf(cfg, PublishedAs(m)) <= from + cfg.validator.maxSkew
    ensures InstantOf(cfg, PublishedAs(m)) == WholeSecond(now)
  {
    MeasurementRoundTrip(m);
    ValidIdIsPlain(m.transformerId);
    ParseIffPublished(TelemetryTopicFor(m.transformerId), m.transformerId);
    assert cfg.db.clock.parse(cfg.db.clock.format(now)) == Some(WholeSecond(now));
  }

  lemma TickIsWelcome(cfg: Config, w: World, n: nat, p: (nat, nat))
    requires Fits(cfg, w, n) && ReportsClean(w, n) && p in Grid(n, |w.fleet|)
    ensures Genuine(cfg, AdmissionAt(w, p)) && InstantOf(cfg, AdmissionAt(w, p)) <= w.start + cfg.validator.maxSkew
    ensures ChecksPass(RowOf(Normalize(AdmissionAt(w, p).m)))
    ensures MeasKey(cfg, AdmissionAt(w, p)) == (w.fleet[p.1].id, SecondOf(w, p.0))
    ensures AdmissionAt(w, p).m.transformerId == w.fleet[p.1].id
    ensures AdmissionAt(w, p).m.timestamp == w.clock.format(NowAt(w, p.0))
  {
    GridIs(n, |w.fleet|);
    TickInCalendar(w, n, p.0);
    SampleStamp(w, p.0, p.1);
    SampleIsWelcome(cfg, EmittedAt(w, p.0, p.1), w.start, NowAt(w, p.0));
  }

  lemma PublishedAreWelcome(cfg: Config, w: World, n: nat)
    requires Fits(cfg, w, n) && ReportsClean(w, n)
    ensures Welcome(cfg, Published(w, n), w.start)
  {
    forall p | p in Grid(n, |w.fleet|)
      ensures Genuine(cfg, AdmissionAt(w, p)) && InstantOf(cfg, AdmissionAt(w, p)) <= w.start + cfg.validator.maxSkew
      ensures ChecksPass(RowOf(Normalize(AdmissionAt(w, p).m)))
    {
      TickIsWelcome(cfg, w, n, p);
    }
  }

  // ---- the keys of a run ----

  lemma PublishedFrom(w: World, n: nat, a: Admission) returns (p: (nat, nat))
    requires a in Published(w, n)
    ensures p in Grid(n, |w.fleet|) && AdmissionAt(w, p) == a && 0 < p.0 <= n && p.1 < |w.fleet|
  {
    GridIs(n, |w.fleet|);
    p :| p in Grid(n, |w.fleet|) && AdmissionAt(w, p) == a;
  }

  /** Two messages of a run share a dedup key exactly when they share a measurement key. */
  lemma KeysTogether(cfg: Config, w: World, n: nat, a: Admission, b: Admission)
    requires Fits(cfg, w, n) && ReportsClean(w, n) && a in Published(w, n) && b in Published(w, n)
    ensures DedupKey(a.m) == DedupKey(b.m) <==> MeasKey(cfg, a) == MeasKey(cfg, b)
  {
    hide Published, AdmissionAt, CleanSample, Genuine;
    var p := PublishedFrom(w, n, a);
    var q := PublishedFrom(w, n, b);
    TickIsWelcome(cfg, w, n, p);
    TickIsWelcome(cfg, w, n, q);
    SameKeySameSource(cfg, a, b);
    TickInCalendar(w, n, p.0);
    TickInCalendar(w, n, q.0);
    FormatExactly(w.clock, NowAt(w, p.0), NowAt(w, q.0));
  }

  /** Seconds paired with one unit, and with units 0 to `k - 1`. */
  function Layer(seconds: set<Instant>, i: nat): set<(Instant, nat)>
  {
    Image(seconds, (t: Instant) => (t, i))
  }

  function Pairs(seconds: set<Instant>, k: nat): set<(Instant, nat)>
  {
    if k == 0 then {} else Pairs(seconds, k - 1) + Layer(seconds, k - 1)
  }

  lemma LayerIs(seconds: set<Instant>, i: nat)
    ensures forall p: (Instant, nat) :: p in Layer(seconds, i) <==> p.0 in seconds && p.1 == i
    ensures |Layer(seconds, i)| == |seconds|
  {
    ImageSize(seconds, (t: Instant) => (t, i));
  }

  lemma {:induction false} PairsAre(seconds: set<Instant>, k: nat)
    ensures forall p: (Instant, nat) :: p in Pairs(seconds, k) <==> p.0 in seconds && p.1 < k
  {
    if k > 0 {
      PairsAre(seconds, k - 1);
      LayerIs(seconds, k - 1);
    }
  }

  lemma {:induction false} PairsSize(seconds: set<Instant>, k: nat)
    ensures |Pairs(seconds, k)| == Times(k, |seconds|)
  {
    hide Times, Layer;
    if k == 0 {
      TimesStep(1, |seconds|);
    } else {
      PairsSize(seconds, k - 1);
      PairsAre(seconds, k - 1);
      LayerIs(seconds, k - 1);
      TimesStep(k, |seconds|);
      DisjointSize(Pairs(seconds, k - 1), Layer(seconds, k - 1));
    }
  }

  function PairKey(w: World, p: (Instant, nat)): (string, Instant)
  {
    (if p.1 < |w.fleet| then w.fleet[p.1].id else "", p.0)
  }

  /** The measurement keys of a run: each unit with each second some tick falls in. */
  lemma PublishedMeasKeys(cfg: Config, w: World, n: nat)
    requires Fits(cfg, w, n) && ReportsClean(w, n)
    ensures MeasKeysOf(cfg, Published(w, n)) == Image(Pairs(Seconds(w, n), |w.fleet|), (p: (Instant, nat)) => PairKey(w, p))
  {
    hide AdmissionAt, CleanSample, Genuine, ReportsClean;
    var pairs, key := Pairs(Seconds(w, n), |w.fleet|), (p: (Instant, nat)) => PairKey(w, p);
    var u, measKey := Published(w, n), (a: Admission) => MeasKey(cfg, a);
    PairsAre(Seconds(w, n), |w.fleet|);
    forall a | a in u ensures MeasKey(cfg, a) in Image(pairs, key) {
      var p := PublishedFrom(w, n, a);
      TickIsWelcome(cfg, w, n, p);
      SecondListed(w, n, p.0);
      assert key((SecondOf(w, p.0), p.1)) == MeasKey(cfg, a);
    }
    forall p | p in pairs ensures key(p) in MeasKeysOf(cfg, u) {
      var m := TickOfSecond(w, n, p.0);
      GridIs(n, |w.fleet|);
      TickIsWelcome(cfg, w, n, (m, p.1));
      assert AdmissionAt(w, (m, p.1)) in u;
      assert measKey(AdmissionAt(w, (m, p.1))) == key(p);
    }
  }

  lemma PairKeysDiffer(cfg: Config, w: World, n: nat, pairs: set<(Instant, nat)>)
    requires Fits(cfg, w, n) && forall p :: p in pairs ==> p.1 < |w.fleet|
    ensures |Image(pairs, (p: (Instant, nat)) => PairKey(w, p))| == |pairs|
  {
    var key := (p: (Instant, nat)) => PairKey(w, p);
    forall p, q | p in pairs && q in pairs && key(p) == key(q) ensures p == q {
      assert PairKey(w, p) == PairKey(w, q);
    }
    ImageSize(pairs, key);
  }

  lemma MeasKeyCount(cfg: Config, w: World, n: nat)
    requires Fits(cfg, w, n) && ReportsClean(w, n)
    ensures |MeasKeysOf(cfg, Published(w, n))| == Times(|w.fleet|, |Seconds(w, n)|)
  {
    hide Published, ReportsClean, Seconds, Image, Pairs, Fits;
    PublishedMeasKeys(cfg, w, n);
    PairsSize(Seconds(w, n), |w.fleet|);
    PairsAre(Seconds(w, n), |w.fleet|);
    PairKeysDiffer(cfg, w, n, Pairs(Seconds(w, n), |w.fleet|));
  }

  /** As many keys of either kind as units times seconds. */
  lemma PublishedKeyCounts(cfg: Config, w: World, n: nat)
    requires Fits(cfg, w, n) && ReportsClean(w, n)
    ensures |KeysOf(Published(w, n))| == |MeasKeysOf(cfg, Published(w, n))| == Times(|w.fleet|, |Seconds(w, n)|)
  {
    hide Published, ReportsClean, Seconds, Image, Fits, DedupKey, MeasKey;
    MeasKeyCount(cfg, w, n);
    var u := Published(w, n);
    forall a, b | a in u && b in u ensures DedupKey(a.m) == DedupKey(b.m) <==> MeasKey(cfg, a) == MeasKey(cfg, b) {
      KeysTogether(cfg, w, n, a, b);
    }
    ImagesAlike(u, (a: Admission) => DedupKey(a.m), (a: Admission) => MeasKey(cfg, a));
  }

  /**
   * End to end, at any interval: whatever the redeliveries, the order and the
   * interleaving, each unit is stored once for every second that some tick falls
   * in; the other samples of that second count as duplicates.
   */
  lemma RunArrivesPerSecond(cfg: Config, w: World, n: nat, run: seq<Label>)
    requires Fits(cfg, w, n) && ReportsClean(w, n)
    requires Calm(Published(w, n), w.start, run) && Drained(Published(w, n), run, Exec(cfg, Init(EMPTY_TABLES), run))
    ensures var s := Exec(cfg, Init(EMPTY_TABLES), run);
            && s.counters.rejected == 0 && s.counters.storeErrors == 0
            && s.counters.accepted == |TablesOf(s).raw| == |TablesOf(s).meas| == |w.fleet| * |Seconds(w, n)|
            && s.counters.duplicates == Deliveries(run) - |w.fleet| * |Seconds(w, n)|
  {
    hide Exec, Published, Fits, ReportsClean, Seconds;
    assert Deployed(cfg) by { FitsIsDeployed(cfg, w, n); }
    PublishedAreWelcome(cfg, w, n);
    PublishedKeyCounts(cfg, w, n);
    AtLeastOnceKeys(cfg, Published(w, n), w.start, run);
    var t := TablesOf(Exec(cfg, Init(EMPTY_TABLES), run));
    assert |t.raw| == |t.raw.Keys| && |t.meas| == |t.meas.Keys|;
  }

  lemma FitsIsDeployed(cfg: Config, w: World, n: nat)
    requires Fits(cfg, w, n)
    ensures Deployed(cfg) && LawfulClock(w.clock) && w.clock == cfg.db.clock && GoodWorld(w) && HorizonInCalendar(w, n)
    ensures w.interval > 0 && w.fleet != []
  {
  }

  /** Every tick of the run is stored exactly when the timestamps tell the ticks apart. */
  lemma NothingLostExactly(cfg: Config, w: World, n: nat, run: seq<Label>)
    requires Fits(cfg, w, n) && ReportsClean(w, n)
    requires Calm(Published(w, n), w.start, run) && Drained(Published(w, n), run, Exec(cfg, Init(EMPTY_TABLES), run))
    ensures Exec(cfg, Init(EMPTY_TABLES), run).counters.accepted == n * |w.fleet| <==> StampsDiffer(w, n)
  {
    hide Exec, Published, Fits, ReportsClean, Seconds, StampsDiffer;
    FitsIsDeployed(cfg, w, n);
    RunArrivesPerSecond(cfg, w, n, run);
    SecondsCount(w, n);
    StampsAreSeconds(w, n);
    CancelFleet(|w.fleet|, |Seconds(w, n)|, n);
  }

  lemma CancelFleet(f: nat, s: nat, n: nat)
    requires f > 0
    ensures f * s == n * f <==> s == n
  {
  }

  // ---- intervals of a second or more ----

  lemma PublishedAreDifferent(cfg: Config, w: World, n: nat)
    requires Fits(cfg, w, n) && ReportsClean(w, n) && w.interval >= NANOS
    ensures AllDifferent(cfg, Published(w, n))
  {
    hide Published, AdmissionAt, CleanSample, Genuine, ReportsClean;
    var u := Published(w, n);
    forall a, b | a in u && b in u && MeasKey(cfg, a) == MeasKey(cfg, b) ensures a == b {
      var p := PublishedFrom(w, n, a);
      var q := PublishedFrom(w, n, b);
      TickIsWelcome(cfg, w, n, p);
      TickIsWelcome(cfg, w, n, q);
      SameTick(cfg, w, n, p, q);
    }
    forall a, b | a in u && b in u && DedupKey(a.m) == DedupKey(b.m) ensures a == b {
      KeysTogether(cfg, w, n, a, b);
    }
  }

  lemma SameTick(cfg: Config, w: World, n: nat, p: (nat, nat), q: (nat, nat))
    requires Fits(cfg, w, n) && w.interval >= NANOS && p.1 < |w.fleet| && q.1 < |w.fleet|
    requires w.fleet[p.1].id == w.fleet[q.1].id && SecondOf(w, p.0) == SecondOf(w, q.0)
    ensures p == q
  {
    if p.0 < q.0 {
      SecondsAdvance(w, p.0, q.0);
    } else if q.0 < p.0 {
      SecondsAdvance(w, q.0, p.0);
    }
  }

  /**
   * End to end: whatever the redeliveries, the order and the interleaving, `n`
   * ticks a second or more apart are stored once each, in both tables, and the
   * duplicates are the surplus.
   */
  lemma RunArrivesOnce(cfg: Config, w: World, n: nat, run: seq<Label>)
    requires Fits(cfg, w, n) && ReportsClean(w, n) && w.interval >= NANOS
    requires Calm(Published(w, n), w.start, run) && Drained(Published(w, n), run, Exec(cfg, Init(EMPTY_TABLES), run))
    ensures var s := Exec(cfg, Init(EMPTY_TABLES), run);
            && s.counters.rejected == 0 && s.counters.storeErrors == 0
            && s.counters.accepted == |TablesOf(s).raw| == |TablesOf(s).meas| == n * |w.fleet|
            && s.counters.duplicates == Deliveries(run) - n * |w.fleet|
            && Exact(cfg, Published(w, n), TablesOf(s))
  {
    hide Exec, Published, Fits, ReportsClean, Seconds, AllDifferent, Exact;
    FitsIsDeployed(cfg, w, n);
    RunArrivesPerSecond(cfg, w, n, run);
    SecondsCount(w, n);
    SecondsApart(w, n);
    PublishedAreWelcome(cfg, w, n);
    PublishedAreDifferent(cfg, w, n);
    AtLeastOnceCounts(cfg, Published(w, n), w.start, run);
  }

  // ---- the silver key of a simulator's samples ----

  lemma PublishedIsCanonical(cfg: Config, w: World, n: nat, adm: Admission)
    requires Fits(cfg, w, n) && Sent(Published(w, n), adm.msg) && Genuine(cfg, adm)
    ensures Canonical(cfg.db.clock, adm.m.timestamp)
  {
    hide Published, Canonical, EmittedAt;
    var a :| a in Published(w, n) && a.msg == adm.msg;
    var p := PublishedFrom(w, n, a);
    MeasurementRoundTrip(EmittedAt(w, p.0, p.1));
    StampIsCanonical(w, n, p.0, p.1);
  }

  /**
   * Whatever becomes of a simulator's messages, restarts and failures included,
   * and at any interval, (transformer, ts) is unique in silver.
   */
  lemma PublishedKeyIsUnique(cfg: Config, w: World, n: nat, run: seq<Label>)
    requires Fits(cfg, w, n) && forall l :: l in run && l.Deliver? ==> Sent(Published(w, n), l.msg)
    ensures UniqueSilverKey(SilverTable(cfg.db.clock, TablesOf(Exec(cfg, Init(EMPTY_TABLES), run)).raw))
  {
    hide Published, Exec, UniqueSilverKey, SilverTable, Canonical, Reached, Fits, Genuine;
    var s := Exec(cfg, Init(EMPTY_TABLES), run);
    FitsIsDeployed(cfg, w, n);
    OnlyFromUniverse(cfg, Init(EMPTY_TABLES), run, iset msg | Sent(Published(w, n), msg));
    ReachedAfter(cfg, run);
    ReachedIsGenuine(cfg, s);
    forall adm | adm in s.ever ensures Canonical(cfg.db.clock, adm.m.timestamp) {
      PublishedIsCanonical(cfg, w, n, adm);
    }
    CanonicalKeyIsUnique(cfg, run);
  }

  // ---- fleets whose samples are clean ----

  /** Ratings that leave a visible voltage and a current the column can hold. */
  ghost predicate PlainRatings(w: World)
  {
    forall i :: 0 <= i < |w.fleet| ==>
      0.0 <= w.fleet[i].ratedPower <= 10_000.0 && 0.1 <= w.fleet[i].hv <= 900_000.0
  }

  lemma QuotientBelow(x: real, y: real, c: real)
    requires y > 0.0 && x <= Product(c, y)
    ensures Quotient(x, y) <= c
  {
    QuotientMonotone(x, Product(c, y), y);
    QuotientOfProduct(c, y);
  }

  lemma RootOfThree(a: Analysis)
    requires Lawful(a)
    ensures a.sqrt(3.0) >= 1.7
  {
    var r := a.sqrt(3.0);
    assert r >= 0.0 && Product(r, r) == 3.0;
    if r < 1.7 {
      ProductLe(r, 1.7, r, 1.7);
    }
  }

  lemma CurrentFits(a: Analysis, load: real, ratedPower: real, kv: real)
    requires Lawful(a) && 0.0 <= load <= 146.445 && 0.0 <= ratedPower <= 10_000.0 && kv >= 0.1
    ensures DeriveCurrent(a, load, ratedPower, kv) <= 90_000_000.0
  {
    var base := Product(a.sqrt(3.0), kv * 1000.0);
    RootOfThree(a);
    ProductLe(1.7, a.sqrt(3.0), 100.0, kv * 1000.0);
    ProductLe(ratedPower * 1_000_000.0, 10_000_000_000.0, load / 100.0, 1.46445);
    assert base >= 170.0;
    QuotientBelow(Product(ratedPower * 1_000_000.0, load / 100.0), base, 90_000_000.0);
  }

  lemma VoltageFits(kv: real, load: real)
    requires 0.0 <= kv <= 900_000.0 && 0.0 <= load <= 160.0
    ensures DeriveVoltage(kv, load) <= 900_000.0
  {
    var rest := 1.0 - (if load > 0.0 then 0.02 * load / 100.0 else 0.0);
    ProductLe(kv, 900_000.0, rest, 1.0);
  }

  lemma RoundedFits(m: Measurement, x: real, y: real)
    requires m.current == Round1(x) && x <= 90_000_000.0 && m.voltage == Round1(y) && y <= 900_000.0
    requires InRanges(m) && WindingClearsOil(m) && KnownState(m.state) && m.winding >= 20.0
    ensures ChecksPass(RowOf(Normalize(m)))
  {
    Round1Near(x);
    Round1Near(y);
    assert m.voltage >= 0.05 by {
      assert m.voltage * 10.0 == RoundHalfAway(y * 10.0) as real;
    }
    AdmittedButRefused(Normalize(m));
    ClassifiedSeverity(m.winding, m.oil, m.load);
  }

  /**
   * A fleet with plain ratings whose gradients cover the coming rise but for
   * half a degree reports nothing but clean samples, at any intensity up to 1.3.
   */
  lemma CoveredFleetIsClean(w: World, n: nat)
    requires Bounded(w) && PlainRatings(w) && forall i :: 0 <= i < |w.fleet| ==> CoveredThrough(w, n, i, 0.5)
    ensures ReportsClean(w, n)
  {
    hide Covered, Pass, LoadOf, ChecksPass, ClassifyState;
    forall m: nat, i: nat | 0 < m <= n && i < |w.fleet| ensures CleanSample(EmittedAt(w, m, i)) {
      assert CoveredThrough(w, n, i, 0.5);
      ReportedGap(w, m, i, 0.5);
      PlainSampleIsClean(w, m, i);
    }
  }

  lemma PlainSampleIsClean(w: World, m: nat, i: nat)
    requires Bounded(w) && PlainRatings(w) && i < |w.fleet| && m > 0 && WindingClearsOil(EmittedAt(w, m, i))
    ensures CleanSample(EmittedAt(w, m, i))
  {
    EmittedInRanges(w, m, i);
    ReportedEnvelope(w, m, i);
    AlwaysInEnvelope(w, m, i);
    TickEquations(w, m, i);
    var j := ParamsOfSource(w, i);
    var load, kv := LoadAt(w, m, i), ParamsOf(w, i).ratedKV;
    CurrentFits(w.a, load, w.fleet[i].ratedPower, kv);
    VoltageFits(kv, load);
    RoundedFits(EmittedAt(w, m, i), DeriveCurrent(w.a, load, w.fleet[i].ratedPower, kv), DeriveVoltage(kv, load));
  }

  /** So does a steep-loss fleet at every intensity from nominal to 1.3. */
  lemma SteepFleetIsClean(w: World, n: nat)
    requires Bounded(w) && SteepLosses(w) && PlainRatings(w) && w.intensity >= 1.0
    ensures ReportsClean(w, n)
  {
    hide Pass, LoadOf, CleanSample;
    forall m: nat, i: nat | 0 < m <= n && i < |w.fleet| ensures CleanSample(EmittedAt(w, m, i)) {
      SteepFleetClears(w, m, i);
      PlainSampleIsClean(w, m, i);
    }
  }
}
