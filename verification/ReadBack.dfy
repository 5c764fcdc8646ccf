// From a stored sample back to the reader of the API: what is listed is what
// was admitted, and for a simulator's run what it emitted, newest first.
module ReadBack {
  import opened Wrappers
  import opened Sets
  import opened Rounding
  import opened Measurement
  import opened Ordering
  import opened Simulator
  import opened Stamps
  import opened Storage
  import opened Protocol
  import opened ProtocolInvariant
  import opened ProtocolWrites
  import opened Confluence
  import opened Delivery
  import opened Paging
  import opened EndToEnd

  /** Every reading has two decimals at most, so the columns keep it. */
  predicate TwoDecimals(m: Measurement)
  {
    && Hundredths(m.load) && Hundredths(m.ambient) && Hundredths(m.oil) && Hundredths(m.winding)
    && Hundredths(m.oilLevel) && Hundredths(m.current) && Hundredths(m.voltage)
  }

  /** The row of such a sample lists as the sample with the state of its readings. */
  lemma RowListsSample(c: Clock, m: Measurement, row: Row)
    requires Canonical(c, m.timestamp) && m.schemaVersion == SCHEMA_VERSION && TwoDecimals(m)
    requires Some(row.ts) == c.parse(m.timestamp)
    requires ShowsReadings(row.readings, m) && row.readings.state == ClassifyState(m.winding, m.oil, m.load)
    ensures ListsRow(c, m.transformerId, row, Normalize(m))
  {
  }

  lemma ListsOneSample(c: Clock, id: string, rows: seq<Row>, i: nat, m: Measurement)
    requires i < |rows| && ListsRow(c, id, rows[i], m)
    ensures Samples(c, id, rows)[i] == m
  {
  }

  // ---- one write ----

  /** Written under a free key and listed over any window that contains it: the sample comes back. */
  lemma WrittenIsListed(db: Database, t: Tables, m: Measurement, at: Instant, from: Instant, to: Instant) returns (i: nat)
    requires Canonical(db.clock, m.timestamp) && m.schemaVersion == SCHEMA_VERSION && TwoDecimals(m)
    requires Some(at) == db.clock.parse(m.timestamp) && (m.transformerId, at) !in t.meas && InWindow(at, from, to)
    requires InsertMeasurement(db, t, Normalize(m)).Ok?
    ensures var rows := Newest(InsertMeasurement(db, t, Normalize(m)).value, m.transformerId, from, to);
            i < |rows| && Samples(db.clock, m.transformerId, rows)[i] == Normalize(m)
  {
    hide ListsRow, Samples, Newest, InWindow, Canonical, ShowsReadings;
    var u := InsertMeasurement(db, t, Normalize(m)).value;
    var rows := Newest(u, m.transformerId, from, to);
    NewestLists(u, m.transformerId, from, to);
    assert (m.transformerId, at) in u.meas;
    i :| 0 <= i < |rows| && rows[i].ts == at;
    RowShows(Normalize(m));
    ReadingsAside(RowOf(Normalize(m)), m);
    RowListsSample(db.clock, m, rows[i]);
    ListsOneSample(db.clock, m.transformerId, rows, i, Normalize(m));
  }

  lemma ReadingsAside(r: MeasurementRow, m: Measurement)
    ensures ShowsReadings(r, Normalize(m)) <==> ShowsReadings(r, m)
  {
  }

  // ---- whole runs ----

  ghost predicate Listable(cfg: Config, ever: set<Admission>)
  {
    forall adm :: adm in ever ==> Canonical(cfg.db.clock, adm.m.timestamp) && TwoDecimals(adm.m)
  }

  /** What the API lists of a transformer over a window. */
  ghost function Listed(cfg: Config, t: Tables, id: string, from: Instant, to: Instant): seq<Measurement>
  {
    Samples(cfg.db.clock, id, Newest(t, id, from, to))
  }

  lemma ExactRowIsListed(cfg: Config, t: Tables, adm: Admission, id: string, from: Instant, to: Instant, i: nat)
    requires Canonical(cfg.db.clock, adm.m.timestamp) && TwoDecimals(adm.m) && adm.m.schemaVersion == SCHEMA_VERSION
    requires MeasExact(cfg, t, adm) && adm.m.transformerId == id
    requires i < |Newest(t, id, from, to)| && Newest(t, id, from, to)[i].ts == InstantOf(cfg, adm)
    ensures i < |Listed(cfg, t, id, from, to)| && Listed(cfg, t, id, from, to)[i] == Normalize(adm.m)
  {
    hide ListsRow, Samples, Newest, InWindow, ShowsReadings;
    NewestLists(t, id, from, to);
    RowShows(Normalize(adm.m));
    ReadingsAside(RowOf(Normalize(adm.m)), adm.m);
    RowListsSample(cfg.db.clock, adm.m, Newest(t, id, from, to)[i]);
    ListsOneSample(cfg.db.clock, id, Newest(t, id, from, to), i, Normalize(adm.m));
    SamplesLength(cfg.db.clock, id, Newest(t, id, from, to));
  }

  lemma SamplesLength(c: Clock, id: string, rows: seq<Row>)
    ensures |Samples(c, id, rows)| == |rows|
  {
  }

  /** The sample of an admitted message of this transformer and window. */
  ghost predicate AdmittedFor(cfg: Config, ever: set<Admission>, id: string, from: Instant, to: Instant, m: Measurement)
  {
    exists adm :: adm in ever && adm.m.transformerId == id && InWindow(InstantOf(cfg, adm), from, to) && m == Normalize(adm.m)
  }

  /**
   * Once caught up, over canonical samples of two decimals: what the API lists of
   * a transformer is exactly what was admitted of it, each with its own state.
   */
  lemma ListingIsWhatWasAdmitted(cfg: Config, run: seq<Label>, id: string, from: Instant, to: Instant, m: Measurement)
    requires var s := Exec(cfg, Init(EMPTY_TABLES), run);
             Quiescent(s) && CaughtUp(s) && PayloadPerKey(s.ever) && Listable(cfg, s.ever)
    ensures var s := Exec(cfg, Init(EMPTY_TABLES), run);
            m in Listed(cfg, TablesOf(s), id, from, to) <==> AdmittedFor(cfg, s.ever, id, from, to, m)
  {
    hide Exec, Samples, Newest, InWindow, Canonical, TwoDecimals, Listed, MeasExact, RawExact;
    var s := Exec(cfg, Init(EMPTY_TABLES), run);
    var t := TablesOf(s);
    EverGenuine(cfg, EMPTY_TABLES, run);
    CanonicalIsOneSpelling(cfg, s.ever);
    CaughtUpIsExact(cfg, run);
    NewestLists(t, id, from, to);
    if m in Listed(cfg, t, id, from, to) {
      var i := PlaceListed(cfg, t, id, from, to, m);
      var adm := KeyIsAdmitted(cfg, s.ever, t, (id, Newest(t, id, from, to)[i].ts));
      ExactRowIsListed(cfg, t, adm, id, from, to, i);
    }
    if AdmittedFor(cfg, s.ever, id, from, to, m) {
      var adm :| adm in s.ever && adm.m.transformerId == id && InWindow(InstantOf(cfg, adm), from, to) && m == Normalize(adm.m);
      assert MeasExact(cfg, t, adm);
      InTable(cfg, t, adm);
      var i :| 0 <= i < |Newest(t, id, from, to)| && Newest(t, id, from, to)[i].ts == InstantOf(cfg, adm);
      ExactRowIsListed(cfg, t, adm, id, from, to, i);
    }
  }

  lemma PlaceListed(cfg: Config, t: Tables, id: string, from: Instant, to: Instant, m: Measurement) returns (i: nat)
    requires m in Listed(cfg, t, id, from, to)
    ensures i < |Newest(t, id, from, to)| && i < |Listed(cfg, t, id, from, to)| && Listed(cfg, t, id, from, to)[i] == m
  {
    i :| 0 <= i < |Listed(cfg, t, id, from, to)| && Listed(cfg, t, id, from, to)[i] == m;
  }

  lemma KeyIsAdmitted(cfg: Config, ever: set<Admission>, t: Tables, key: (string, Instant)) returns (adm: Admission)
    requires Exact(cfg, ever, t) && key in t.meas
    ensures adm in ever && MeasKey(cfg, adm) == key && adm.m.transformerId == key.0 && InstantOf(cfg, adm) == key.1
  {
    var measKey := (adm: Admission) => MeasKey(cfg, adm);
    assert key in Image(ever, measKey);
    adm :| adm in ever && measKey(adm) == key;
  }

  lemma InTable(cfg: Config, t: Tables, adm: Admission)
    requires MeasExact(cfg, t, adm)
    ensures (adm.m.transformerId, InstantOf(cfg, adm)) in t.meas
  {
  }

  // ---- a simulator's run ----

  lemma EmittedIsListable(w: World, n: nat, m: nat, i: nat)
    requires GoodWorld(w) && LawfulClock(w.clock) && HorizonInCalendar(w, n) && i < |w.fleet| && 0 < m <= n
    ensures Canonical(w.clock, EmittedAt(w, m, i).timestamp) && TwoDecimals(EmittedAt(w, m, i))
    ensures EmittedAt(w, m, i).schemaVersion == SCHEMA_VERSION && EmittedAt(w, m, i).transformerId == w.fleet[i].id
  {
    hide Canonical, Hundredths, Round1;
    StampIsCanonical(w, n, m, i);
    SampleStamp(w, m, i);
    TickEquations(w, m, i);
    forall v: real ensures Hundredths(Round1(v)) {
      TenthsShow(v);
    }
  }

  /** The seconds of the ticks, last one first. */
  ghost function SecondsBack(w: World, n: nat): (ts: seq<Instant>)
    ensures |ts| == n
  {
    seq(n, k requires 0 <= k < n => SecondOf(w, n - k))
  }

  /** The rows of a unit are those of its ticks, listed newest first. */
  lemma TicksAreListed(w: World, n: nat, t: Tables, id: string, from: Instant, to: Instant)
    requires w.interval >= NANOS && Window(t, id, from, to) == Seconds(w, n)
    ensures |Newest(t, id, from, to)| == n
    ensures forall k :: 0 <= k < n ==> Newest(t, id, from, to)[k].ts == SecondsBack(w, n)[k]
  {
    var back := SecondsBack(w, n);
    NewerIsStrict();
    SecondsApart(w, n);
    SecondsCount(w, n);
    forall x ensures x in back <==> x in Seconds(w, n) {
      if x in back {
        var k :| 0 <= k < n && back[k] == x;
        SecondListed(w, n, n - k);
      }
      if x in Seconds(w, n) {
        var m := TickOfSecond(w, n, x);
        assert back[n - m] == x;
      }
    }
    forall j, k | 0 <= j < k < n ensures NEWER(back[j], back[k]) {
      SecondsAdvance(w, n - k, n - j);
    }
    OrderedUnique(Window(t, id, from, to), NEWER, back);
  }

  /** A unit's window holds one instant for each second a tick falls in. */
  lemma WindowIsSeconds(cfg: Config, w: World, n: nat, t: Tables, i: nat, from: Instant, to: Instant)
    requires Fits(cfg, w, n) && ReportsClean(w, n) && i < |w.fleet| && from == to == ZERO_TIME
    requires t.meas.Keys == MeasKeysOf(cfg, Published(w, n))
    ensures Window(t, w.fleet[i].id, from, to) == Seconds(w, n)
  {
    hide Published, Seconds, ReportsClean, MeasKeysOf;
    var id, pairs := w.fleet[i].id, Pairs(Seconds(w, n), |w.fleet|);
    var key := (p: (Instant, nat)) => PairKey(w, p);
    PublishedMeasKeys(cfg, w, n);
    PairsAre(Seconds(w, n), |w.fleet|);
    forall x ensures x in Window(t, id, from, to) <==> x in Seconds(w, n) {
      if x in Window(t, id, from, to) {
        assert (id, x) in t.meas.Keys;
        var p :| p in pairs && key(p) == (id, x);
        assert p.0 == x;
      }
      if x in Seconds(w, n) {
        assert (x, i) in pairs && key((x, i)) == (id, x);
        assert (id, x) in t.meas.Keys;
      }
    }
  }

  /**
   * End to end and back: after any at-least-once delivery of a run, the API lists
   * of each unit exactly the samples it emitted, the last tick first, each with
   * the state its own readings imply.
   */
  lemma RunIsListed(cfg: Config, w: World, n: nat, run: seq<Label>, i: nat, from: Instant, to: Instant)
    requires Fits(cfg, w, n) && ReportsClean(w, n) && w.interval >= NANOS && i < |w.fleet| && from == to == ZERO_TIME
    requires Calm(Published(w, n), w.start, run) && Drained(Published(w, n), run, Exec(cfg, Init(EMPTY_TABLES), run))
    ensures var listed := Listed(cfg, TablesOf(Exec(cfg, Init(EMPTY_TABLES), run)), w.fleet[i].id, from, to);
            && |listed| == n
            && forall k :: 0 <= k < n ==> listed[k] == Normalize(EmittedAt(w, n - k, i))
  {
    hide *;
    FitsIsDeployed(cfg, w, n);
    var t := TablesOf(Exec(cfg, Init(EMPTY_TABLES), run));
    var id := w.fleet[i].id;
    RunTables(cfg, w, n, run);
    WindowIsSeconds(cfg, w, n, t, i, from, to);
    TicksAreListed(w, n, t, id, from, to);
    ListedLength(cfg, t, id, from, to);
    forall k | 0 <= k < n ensures Listed(cfg, t, id, from, to)[k] == Normalize(EmittedAt(w, n - k, i)) {
      BackAt(w, n, k);
      TickIsListed(cfg, w, n, t, n - k, i, from, to, k);
    }
  }

  lemma BackAt(w: World, n: nat, k: nat)
    requires k < n
    ensures SecondsBack(w, n)[k] == SecondOf(w, n - k)
  {
  }

  lemma RunTables(cfg: Config, w: World, n: nat, run: seq<Label>)
    requires Fits(cfg, w, n) && ReportsClean(w, n) && w.interval >= NANOS
    requires Calm(Published(w, n), w.start, run) && Drained(Published(w, n), run, Exec(cfg, Init(EMPTY_TABLES), run))
    ensures var t := TablesOf(Exec(cfg, Init(EMPTY_TABLES), run));
            Exact(cfg, Published(w, n), t) && t.meas.Keys == MeasKeysOf(cfg, Published(w, n))
  {
    hide *;
    FitsIsDeployed(cfg, w, n);
    PublishedAreWelcome(cfg, w, n);
    AtLeastOnceKeys(cfg, Published(w, n), w.start, run);
    RunArrivesOnce(cfg, w, n, run);
  }

  lemma ListedLength(cfg: Config, t: Tables, id: string, from: Instant, to: Instant)
    ensures |Listed(cfg, t, id, from, to)| == |Newest(t, id, from, to)|
  {
    hide Newest;
    SamplesLength(cfg.db.clock, id, Newest(t, id, from, to));
  }

  lemma TickIsPublished(w: World, n: nat, m: nat, i: nat)
    requires GoodWorld(w) && i < |w.fleet| && 0 < m <= n
    ensures AdmissionAt(w, (m, i)) in Published(w, n) && AdmissionAt(w, (m, i)).m == EmittedAt(w, m, i)
  {
    hide EmittedAt;
    GridIs(n, |w.fleet|);
  }

  lemma TickIsListed(cfg: Config, w: World, n: nat, t: Tables, m: nat, i: nat, from: Instant, to: Instant, k: nat)
    requires Fits(cfg, w, n) && ReportsClean(w, n) && w.interval >= NANOS && i < |w.fleet| && 0 < m <= n
    requires Exact(cfg, Published(w, n), t)
    requires k < |Newest(t, w.fleet[i].id, from, to)| && Newest(t, w.fleet[i].id, from, to)[k].ts == SecondOf(w, m)
    ensures k < |Listed(cfg, t, w.fleet[i].id, from, to)|
    ensures Listed(cfg, t, w.fleet[i].id, from, to)[k] == Normalize(EmittedAt(w, m, i))
  {
    hide ReportsClean, Newest, Samples, Canonical, TwoDecimals, Listed, EmittedAt, Published, RawExact, Genuine, ChecksPass,
      SecondOf, Normalize, Elapsed, InCalendar;
    var p := (m, i);
    GridIs(n, |w.fleet|);
    TickIsPublished(w, n, m, i);
    PublishedAreDifferent(cfg, w, n);
    EmittedIsListable(w, n, m, i);
    TickIsWelcome(cfg, w, n, p);
    assert MeasExact(cfg, t, AdmissionAt(w, p));
    ExactRowIsListed(cfg, t, AdmissionAt(w, p), w.fleet[i].id, from, to, k);
  }
}
