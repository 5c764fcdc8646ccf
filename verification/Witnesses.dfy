// Concrete inputs at which the exceptions stated elsewhere occur.
module Witnesses {
  import opened Wrappers
  import opened Random
  import opened Rounding
  import opened Analysis
  import opened Measurement
  import opened Json
  import opened Topic
  import opened Physics
  import opened ThermalLag
  import opened Simulator
  import opened StepBounds
  import opened OrderPreservation
  import opened RoundedState
  import opened Storage
  import opened Protocol
  import opened Ingestor
  import opened ProtocolInvariant
  import opened TableProvenance
  import opened ProvenanceExact
  import opened Confluence
  import opened Delivery
  import opened Silver
  import opened SilverTheorems
  import opened EndToEnd
  import WindingGap

  /** A deployed service that knows a transformer. */
  ghost predicate Serves(cfg: Config, id: string)
  {
    Deployed(cfg) && id in cfg.validator.registry && id != "" && '/' !in id
  }

  function Reading(id: string, timestamp: string, load: real, state: string): Measurement
  {
    Measurement(SCHEMA_VERSION, id, timestamp, load, 25.0, 60.0, 70.0, 95.0, 100.0, 110.0, state)
  }

  lemma ReadingIsGenuine(cfg: Config, id: string, timestamp: string, load: real, state: string)
    requires Serves(cfg, id) && cfg.db.clock.parse(timestamp).Some? && KnownState(state) && 0.0 <= load <= 200.0
    ensures Genuine(cfg, PublishedAs(Reading(id, timestamp, load, state)))
    ensures ChecksPass(RowOf(Normalize(Reading(id, timestamp, load, state))))
  {
    var m := Reading(id, timestamp, load, state);
    MeasurementRoundTrip(m);
    ParseIffPublished(TelemetryTopicFor(id), id);
    ClassifiedSeverity(m.winding, m.oil, m.load);
    AdmittedButRefused(Normalize(m));
  }

  // ---- one key, two payloads ----

  /** Two messages under one key: half load and severe overload. A restart between them separates the stores. */
  lemma IncoherentPair(cfg: Config, id: string, at: Instant) returns (a: Admission, b: Admission)
    requires Serves(cfg, id) && InCalendar(at)
    ensures Genuine(cfg, a) && Genuine(cfg, b) && !RowsAgree(a.m, b.m) && !StatesAgree(a.m, b.m)
    ensures !AlwaysBacked(cfg, iset{a.msg, b.msg}) && !AlwaysAgrees(cfg, iset{a.msg, b.msg})
  {
    hide Round2, ChecksPass, Genuine, AlwaysBacked, AlwaysAgrees, EncodeMeasurement;
    var stamp := cfg.db.clock.format(at);
    FormattedIsCanonical(cfg.db.clock, at);
    var m, n := Reading(id, stamp, 50.0, STATE_NORMAL), Reading(id, stamp, 150.0, STATE_CRITICAL);
    a, b := PublishedAs(m), PublishedAs(n);
    ReadingIsGenuine(cfg, id, stamp, 50.0, STATE_NORMAL);
    ReadingIsGenuine(cfg, id, stamp, 150.0, STATE_CRITICAL);
    ClassifiedSeverity(m.winding, m.oil, m.load);
    ClassifiedSeverity(n.winding, n.oil, n.load);
    var universe := iset{a.msg, b.msg};
    assert a in Potential(cfg, universe) && b in Potential(cfg, universe);
    BackedExactlyWhenCoherent(cfg, universe);
    AgreesExactlyWhenCoherent(cfg, universe);
  }

  // ---- messages handled one after the other ----

  function Quietly(at: Instant): Circumstances
  {
    Circumstances(at, at, Healthy, Healthy)
  }

  /** Two calls in a row, of the same or of different messages. */
  function InTurn(a: Message, b: Message, at: Instant): seq<Label>
  {
    CallRun(0, a, Quietly(at)) + CallRun(1, b, Quietly(at))
  }

  lemma InTurnIsCalm(u: set<Admission>, a: Admission, b: Admission, at: Instant)
    requires a in u && b in u && InCalendar(at)
    ensures Calm(u, at, InTurn(a.msg, b.msg, at))
    ensures Deliver(a.msg) in InTurn(a.msg, b.msg, at) && Deliver(b.msg) in InTurn(a.msg, b.msg, at)
  {
    var first, second := CallRun(0, a.msg, Quietly(at)), CallRun(1, b.msg, Quietly(at));
    forall l | l in InTurn(a.msg, b.msg, at) ensures CalmLabel(u, at, l) {
      assert l in first || l in second;
    }
    assert first[0] == Deliver(a.msg) && second[0] == Deliver(b.msg);
    assert first[0] in first && second[0] in second;
  }

  predicate Returned(h: Handler)
  {
    h.pc.Rejected? || h.pc.Skipped? || h.pc.Accepted? || h.pc.Errored?
  }

  lemma InTurnDrains(cfg: Config, a: Message, b: Message, at: Instant)
    ensures var s := Exec(cfg, Init(EMPTY_TABLES), InTurn(a, b, at));
            |s.handlers| == 2 && Returned(s.handlers[0]) && Returned(s.handlers[1])
  {
    var c := Quietly(at);
    CallIsRun(cfg, Init(EMPTY_TABLES), a, c);
    var s := Exec(cfg, Init(EMPTY_TABLES), CallRun(0, a, c));
    CallIsRun(cfg, s, b, c);
    ExecConcat(cfg, Init(EMPTY_TABLES), CallRun(0, a, c), CallRun(1, b, c));
    var t := Exec(cfg, s, CallRun(1, b, c));
    assert t.handlers[0] == t.handlers[..1][0];
    hide Exec, CallRun, SharedOf, Handle, Decide, Succeeds;
  }

  lemma InTurnIsDrained(cfg: Config, u: set<Admission>, a: Admission, b: Admission, at: Instant)
    requires u == {a, b} && InCalendar(at)
    ensures var run := InTurn(a.msg, b.msg, at);
            Calm(u, at, run) && Drained(u, run, Exec(cfg, Init(EMPTY_TABLES), run))
  {
    hide Exec, InTurn;
    InTurnIsCalm(u, a, b, at);
    InTurnDrains(cfg, a.msg, b.msg, at);
  }

  lemma Kept(cfg: Config, u: set<Admission>, from: Instant, run: seq<Label>, a: Admission)
    requires Deployed(cfg) && Welcome(cfg, u, from) && AllDifferent(cfg, u) && a in u
    requires Calm(u, from, run) && Drained(u, run, Exec(cfg, Init(EMPTY_TABLES), run))
    ensures a in Captured(cfg, Exec(cfg, Init(EMPTY_TABLES), run))
  {
    hide Exec, Deployed, Welcome, AllDifferent;
    AtLeastOnceCounts(cfg, u, from, run);
    AtLeastOnceKeys(cfg, u, from, run);
  }

  // ---- two samples within one second ----

  lemma SpelledAt(c: Clock, t: Instant) returns (text: string)
    requires LawfulClock(c) && InCalendar(t)
    ensures c.parse(text) == Some(t)
  {
    assert Spelled(c, t);
    text :| c.parse(text) == Some(t);
  }

  lemma TwoAreDifferent(cfg: Config, a: Admission, b: Admission)
    requires DedupKey(a.m) != DedupKey(b.m) && MeasKey(cfg, a) != MeasKey(cfg, b)
    ensures AllDifferent(cfg, {a, b})
  {
  }

  lemma PairIsNotUnique(cfg: Config, a: Admission, b: Admission, at: Instant) returns (run: seq<Label>)
    requires Deployed(cfg) && Welcome(cfg, {a, b}, at) && InCalendar(at)
    requires DedupKey(a.m) != DedupKey(b.m) && MeasKey(cfg, a) != MeasKey(cfg, b) && SecondKey(cfg, a) == SecondKey(cfg, b)
    ensures !UniqueSilverKey(SilverTable(cfg.db.clock, TablesOf(Exec(cfg, Init(EMPTY_TABLES), run)).raw))
  {
    hide Exec, InTurn, Deployed, Welcome, UniqueSilverKey, SilverTable, Captured, AllDifferent, Calm, Drained, DedupKey,
      MeasKey, SecondKey;
    var u := {a, b};
    run := InTurn(a.msg, b.msg, at);
    TwoAreDifferent(cfg, a, b);
    InTurnIsDrained(cfg, u, a, b, at);
    Kept(cfg, u, at, run, a);
    Kept(cfg, u, at, run, b);
    DeployedClock(cfg);
    SilverKeyUniqueExactly(cfg, run);
  }

  lemma DeployedClock(cfg: Config)
    requires Deployed(cfg)
    ensures LawfulClock(cfg.db.clock) && PlainIds(cfg) && cfg.validator.maxSkew >= 0
  {
  }

  const MILLISECOND: int := 1_000_000

  /** A sample on the second and one a millisecond later are both admitted and stored; the silver key is not unique. */
  lemma TwoInOneSecond(cfg: Config, id: string, at: Instant) returns (run: seq<Label>)
    requires Serves(cfg, id) && InCalendar(at) && InCalendar(at + MILLISECOND) && at % NANOS == 0
    ensures !UniqueSilverKey(SilverTable(cfg.db.clock, TablesOf(Exec(cfg, Init(EMPTY_TABLES), run)).raw))
  {
    hide Exec, Genuine, EncodeMeasurement, ChecksPass, UniqueSilverKey, SilverTable, Deployed;
    DeployedClock(cfg);
    var first := SpelledAt(cfg.db.clock, at);
    var second := SpelledAt(cfg.db.clock, at + MILLISECOND);
    var a, b := PublishedAs(Reading(id, first, 50.0, STATE_NORMAL)), PublishedAs(Reading(id, second, 50.0, STATE_NORMAL));
    ReadingIsGenuine(cfg, id, first, 50.0, STATE_NORMAL);
    ReadingIsGenuine(cfg, id, second, 50.0, STATE_NORMAL);
    SameKeySameSource(cfg, a, b);
    run := PairIsNotUnique(cfg, a, b, at + MILLISECOND);
  }

  // ---- a state that the readings do not imply ----

  /** One message that does not carry the state of its readings is stored and fails the test. */
  lemma MismatchIsSeen(cfg: Config, a: Admission, at: Instant) returns (run: seq<Label>)
    requires Deployed(cfg) && Welcome(cfg, {a}, at) && InCalendar(at) && a.m != Normalize(a.m)
    ensures var silver := SilverTable(cfg.db.clock, TablesOf(Exec(cfg, Init(EMPTY_TABLES), run)).raw);
            DedupKey(a.m) in silver && silver[DedupKey(a.m)].state != Some(StateRecomputed(silver[DedupKey(a.m)]))
  {
    hide Exec, InTurn, Deployed, Welcome, SilverTable, StateRecomputed, AllDifferent, Calm, Drained, DedupKey, Normalize;
    var u := {a};
    run := InTurn(a.msg, a.msg, at);
    InTurnIsDrained(cfg, u, a, a, at);
    OneIsDifferent(cfg, a);
    Kept(cfg, u, at, run, a);
    DeployedClock(cfg);
    AtLeastOnceKeys(cfg, u, at, run);
    assert DedupKey(a.m) in TablesOf(Exec(cfg, Init(EMPTY_TABLES), run)).raw;
    var adm := StateTestExactly(cfg, run, DedupKey(a.m));
    assert adm in u;
  }

  /** A reported load of 100.0 under the state the load of 100.02 had: the silver row fails the state test. */
  lemma StateTestFails(cfg: Config, id: string, at: Instant) returns (run: seq<Label>, k: string)
    requires Serves(cfg, id) && InCalendar(at)
    ensures var silver := SilverTable(cfg.db.clock, TablesOf(Exec(cfg, Init(EMPTY_TABLES), run)).raw);
            k in silver && silver[k].state != Some(StateRecomputed(silver[k]))
  {
    hide Exec, Genuine, EncodeMeasurement, ChecksPass, SilverTable, StateRecomputed, Deployed;
    DeployedClock(cfg);
    var stamp := cfg.db.clock.format(at);
    FormattedIsCanonical(cfg.db.clock, at);
    var m := Reading(id, stamp, 100.0, STATE_WARNING);
    ReadingIsGenuine(cfg, id, stamp, 100.0, STATE_WARNING);
    ClassifiedSeverity(m.winding, m.oil, m.load);
    StatesDiffer();
    k := DedupKey(m);
    run := MismatchIsSeen(cfg, PublishedAs(m), at);
  }

  lemma OneIsDifferent(cfg: Config, a: Admission)
    ensures AllDifferent(cfg, {a})
  {
  }

  // ---- the simulator reaches such a sample ----

  lemma SlowStep(a: Analysis, current: real, target: real, tau: real, dt: real, top: real)
    requires Lawful(a) && tau >= 1.0 && 0.0 <= dt && current <= 31.0 && target <= top && top >= 31.0
    requires Product(top - 21.0, Quotient(dt, tau)) <= 1.0 && current >= 21.0
    ensures ThermalStep(a, current, target, tau, dt) <= 32.0
  {
    var x := Quotient(dt, tau);
    QuotientSign(dt, tau);
    DecayBounds(a, dt, tau);
    WindingGap.ExpTangents(a, x);
    LagBetween(current, target, Decay(a, dt, tau));
    if target > current {
      assert Lag(current, target, Decay(a, dt, tau)) == current + Product(target - current, 1.0 - Decay(a, dt, tau));
      ProductLe(target - current, top - 21.0, 1.0 - Decay(a, dt, tau), x);
    }
  }

  lemma FirstSecond(a: Analysis, p: Params, u: Unit, ambient: real, load: real)
    requires Lawful(a) && GoodParams(p) && 0.0 <= p.maxOilRise <= 62.0 && 0.0 <= p.windingGrad <= 21.5
    requires 21.0 <= u.oil <= 31.0 && 21.0 <= u.winding <= 31.0 && 21.0 <= ambient <= 31.0 && load == 100.02
    ensures UnitAfter(a, 1.0, p, u, ambient, load).oil <= 32.0 && UnitAfter(a, 1.0, p, u, ambient, load).winding <= 32.0
  {
    var k := load / 100.0;
    assert 0.0 <= Square(k) <= 1.1;
    OilTargetBounds(a, ambient, k, p, 1.1);
    var oilTarget := TopOilSteady(a, ambient, k, p.lossRatio, p.maxOilRise);
    assert oilTarget <= 98.0;
    assert Product(77.0, Quotient(1.0, OIL_TIME_CONSTANT)) <= 1.0;
    SlowStep(a, u.oil, oilTarget, OIL_TIME_CONSTANT, 1.0, 98.0);
    var oil := OilAfter(a, 1.0, p, u, ambient, load);
    WindingTargetBounds(a, oil, k, p.windingGrad, 1.1);
    assert Product(35.0, Quotient(1.0, WINDING_TIME_CONSTANT)) <= 1.0;
    SlowStep(a, u.winding, WindingSteady(a, oil, k, p.windingGrad), WINDING_TIME_CONSTANT, 1.0, 56.0);
  }

  /** An intensity that makes the first load of a unit 100.02. */
  lemma Tuned(w: World, n: nat, i: nat) returns (h: World)
    requires GoodWorld(w) && Lawful(w.a) && UnitStream(w.r) && i < |w.fleet| && n == 1
    ensures h == w.(intensity := h.intensity) && 0.8 < h.intensity < 2.8
    ensures LoadAt(h, n, i) == 100.02
  {
    hide Pass, Product, Lawful, NominalLoad, UnitAt;
    var p, draw := ParamsOf(w, i), DrawAt(w.r, DrawIndex(w, n, i));
    AmbientAlways(w, 0, i);
    assert 0.0 <= draw < 1.0;
    var nominal := NominalLoad(w.a, NowAt(w, n), p.loadOffset, UnitAt(w, n - 1, i).ambient, draw);
    NominalLoadBounds(w.a, NowAt(w, n), p.loadOffset, UnitAt(w, n - 1, i).ambient, draw);
    var intensity := Divided(100.02, nominal);
    h := w.(intensity := intensity);
    SameDraws(w, h, n);
    SameDraws(w, h, n - 1);
    SameParams(w, h, i);
    InitiallyEqual(w, h, i);
    TickEquations(h, n, i);
  }

  lemma Divided(x: real, y: real) returns (q: real)
    requires x == 100.02 && 36.49 <= y <= 112.65
    ensures Product(q, y) == x && 0.8 < q < 2.8
  {
    q := x / y;
    assert q * y == x;
    assert q <= 0.8 ==> (0.8 - q) * y >= 0.0;
    assert q >= 2.8 ==> (q - 2.8) * y >= 0.0;
  }

  /**
   * In every fleet, stream and start, some intensity makes the first sample of a
   * one-second run WARNING for the simulator and NORMAL for the service.
   */
  lemma DowngradeHappens(w: World, n: nat, i: nat) returns (h: World)
    requires GoodWorld(w) && SoundLosses(w) && Lawful(w.a) && UnitStream(w.r)
    requires w.interval == NANOS && i < |w.fleet| && n == 1
    ensures h == w.(intensity := h.intensity) && 0.8 < h.intensity < 2.8
    ensures EmittedAt(h, n, i).state == STATE_WARNING && Normalize(EmittedAt(h, n, i)).state == STATE_NORMAL
  {
    h := Tuned(w, n, i);
    TickEquations(h, n, i);
    ParamBounds(h, i);
    AmbientAlways(h, n - 1, i);
    AmbientBounds(h.a, NowAt(h, n));
    FirstSecond(h.a, ParamsOf(h, i), UnitAt(h, n - 1, i), AmbientAt(h.a, NowAt(h, n)), LoadAt(h, n, i));
    DowngradedSample(EmittedAt(h, n, i), UnitAt(h, n, i));
  }

  lemma DowngradedSample(m: Measurement, u: Unit)
    requires u.oil <= 32.0 && u.winding <= 32.0
    requires m.load == Round1(100.02) && m.oil == Round1(u.oil) && m.winding == Round1(u.winding)
    requires m.state == ClassifyState(u.winding, u.oil, 100.02)
    ensures m.state == STATE_WARNING && Normalize(m).state == STATE_NORMAL
  {
    ClassifiedSeverity(u.winding, u.oil, 100.02);
    ClassifiedSeverity(m.winding, m.oil, m.load);
    RoundedThresholds(u.winding, u.oil, 100.02);
    StatesDiffer();
  }
}
