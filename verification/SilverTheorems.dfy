// Agreement of the raw table, the measurements table and the silver models over
// every run of the ingestion service.
module SilverTheorems {
  import opened Wrappers
  import opened Text
  import opened Measurement
  import opened Json
  import opened Topic
  import opened Storage
  import opened Protocol
  import opened ProtocolInvariant
  import opened TableProvenance
  import opened ProvenanceExact
  import opened Confluence
  import opened Silver

  /** What SQL extracts is what the service decoded, with missing values for the zeros. */
  lemma ExtractedIsDecoded(payload: Json)
    requires DecodeMeasurement(payload).Some?
    ensures var m := DecodeMeasurement(payload).value;
            && OrZero(NumberOf(Field(payload, WindingTemperature))) == m.winding
            && OrZero(NumberOf(Field(payload, OilTemperature))) == m.oil
            && OrZero(NumberOf(Field(payload, LoadPercent))) == m.load
            && m.timestamp == (var ts := TextOf(Field(payload, Timestamp)); if ts.Some? then ts.value else "")
            && m.state == (var st := TextOf(Field(payload, Key.State)); if st.Some? then st.value else "")
  {
  }

  /** The deduplication drops no row of a table that live ingestion has reached. */
  lemma SilverDropsNothing(cfg: Config, run: seq<Label>)
    ensures var raw := TablesOf(Exec(cfg, Init(EMPTY_TABLES), run)).raw;
            forall id :: id in raw ==> Kept(raw, id)
  {
    ReachedAfter(cfg, run);
    ReachedIsKept(cfg, Exec(cfg, Init(EMPTY_TABLES), run));
  }

  lemma ReachedIsKept(cfg: Config, s: State)
    requires Reached(cfg, s)
    ensures forall id :: id in TablesOf(s).raw ==> Kept(TablesOf(s).raw, id)
  {
    hide Faithful, Kept, Reached;
    ReachedIsFaithful(cfg, s);
    forall id | id in TablesOf(s).raw ensures Kept(TablesOf(s).raw, id) {
      FaithfulIsKept(TablesOf(s), id);
    }
  }

  lemma FaithfulIsKept(t: Tables, id: string)
    requires id in t.raw && forall k :: k in t.raw ==> Faithful(t, k)
    ensures Kept(t.raw, id)
  {
    assert Faithful(t, id);
    ExtractedIsDecoded(t.raw[id].payload);
    forall other | other in t.raw && Selected(t.raw, other) && SamePartition(t.raw, other, id)
      ensures !Precedes(t.raw, other, id)
    {
      assert Faithful(t, other);
      ExtractedIsDecoded(t.raw[other].payload);
      assert other == id;
      TextLessTrichotomy(id, id);
    }
  }

  /** The silver row of an admitted message, from its raw row. */
  lemma SilverOfAdmitted(cfg: Config, s: State, adm: Admission)
    requires LawfulClock(cfg.db.clock) && Genuine(cfg, adm) && RawExact(cfg, TablesOf(s), adm)
    requires forall k :: k in TablesOf(s).raw ==> Faithful(TablesOf(s), k)
    ensures var silver := SilverTable(cfg.db.clock, TablesOf(s).raw);
            && DedupKey(adm.m) in silver
            && silver[DedupKey(adm.m)].transformerId == adm.m.transformerId
            && silver[DedupKey(adm.m)].payloadTransformerId == Some(adm.m.transformerId)
            && silver[DedupKey(adm.m)].ts == Some(WholeSecond(InstantOf(cfg, adm)))
            && silver[DedupKey(adm.m)].state == Some(adm.m.state)
            && StateRecomputed(silver[DedupKey(adm.m)]) == Normalize(adm.m).state
  {
    var k := DedupKey(adm.m);
    FaithfulIsKept(TablesOf(s), k);
    var payload := TablesOf(s).raw[k].payload;
    assert payload == Timeless(TablesOf(s).raw[k]).payload == TimelessRow(cfg, adm).payload;
    ExtractedIsDecoded(payload);
    ParseIffPublished(adm.msg.topic, adm.m.transformerId);
    KnownStateIsClean(adm.m.state);
    SqlAgreesWithService(NumberOf(Field(payload, WindingTemperature)), NumberOf(Field(payload, OilTemperature)),
                         NumberOf(Field(payload, LoadPercent)));
  }

  lemma KnownStateIsClean(state: string)
    requires KnownState(state)
    ensures Upper(Trim(state)) == state && state != ""
  {
    assert state[0] != ' ' && state[|state| - 1] != ' ';
    assert Trim(state) == state;
    forall i | 0 <= i < |state| ensures UpperChar(state[i]) == state[i] {
    }
  }

  lemma SourceOfRow(cfg: Config, s: State, k: string) returns (adm: Admission)
    requires LawfulClock(cfg.db.clock) && Reached(cfg, s) && k in TablesOf(s).raw
    requires forall id :: id in TablesOf(s).raw ==> Faithful(TablesOf(s), id)
    ensures adm in s.ever && DedupKey(adm.m) == k && RawExact(cfg, TablesOf(s), adm)
    ensures var silver := SilverTable(cfg.db.clock, TablesOf(s).raw);
            k in silver && silver[k].transformerId == adm.m.transformerId
            && silver[k].payloadTransformerId == Some(adm.m.transformerId)
            && silver[k].ts == Some(WholeSecond(InstantOf(cfg, adm)))
            && silver[k].state == Some(adm.m.state) && StateRecomputed(silver[k]) == Normalize(adm.m).state
  {
    adm := CaptureOf(cfg, s, k);
    SilverOfAdmitted(cfg, s, adm);
  }

  // ---- the columns of the silver table ----

  /** The column shows the reading; it is empty where the payload has no number, which the service reads as zero. */
  predicate ColumnOf(column: Option<real>, payload: Json, key: Key, reading: real)
  {
    && payload.Obj?
    && (column == Some(reading) || (column.None? && reading == 0.0))
    && (column.None? <==> Held(payload.fields, key).Null?)
  }

  lemma ExtractsColumn(payload: Json, key: Key, reading: real)
    requires payload.Obj? && NumberOrNull(Held(payload.fields, key), reading)
    ensures ColumnOf(NumberOf(Field(payload, key)), payload, key, reading)
  {
  }

  /** Each column of the silver row holds its own reading of the message the raw row captures. */
  ghost predicate ShowsMessage(row: SilverRow, raw: RawRow, m: Measurement)
  {
    && row.source == raw.source && row.ingestedAt == raw.ingestedAt
    && ColumnOf(row.load, raw.payload, LoadPercent, m.load)
    && ColumnOf(row.ambient, raw.payload, AmbientTemperature, m.ambient)
    && ColumnOf(row.oil, raw.payload, OilTemperature, m.oil)
    && ColumnOf(row.winding, raw.payload, WindingTemperature, m.winding)
    && ColumnOf(row.oilLevel, raw.payload, OilLevelPercent, m.oilLevel)
    && ColumnOf(row.current, raw.payload, CurrentA, m.current)
    && ColumnOf(row.voltage, raw.payload, VoltageKV, m.voltage)
    && (row.quality == Complete <==> row.load.Some? && row.oil.Some? && row.winding.Some?)
  }

  lemma ExtractShowsMessage(c: Clock, raw: RawRow, m: Measurement)
    requires DecodeMeasurement(raw.payload) == Some(m) && raw.payload.Obj?
    ensures ShowsMessage(Extract(c, raw), raw, m)
  {
    hide ColumnOf, NumberOrNull, TextOrNull, Held, Field, DecodeMeasurement;
    var f := raw.payload.fields;
    DecodesExactly(f, m);
    ExtractsColumn(raw.payload, LoadPercent, m.load);
    ExtractsColumn(raw.payload, AmbientTemperature, m.ambient);
    ExtractsColumn(raw.payload, OilTemperature, m.oil);
    ExtractsColumn(raw.payload, WindingTemperature, m.winding);
    ExtractsColumn(raw.payload, OilLevelPercent, m.oilLevel);
    ExtractsColumn(raw.payload, CurrentA, m.current);
    ExtractsColumn(raw.payload, VoltageKV, m.voltage);
  }

  lemma GenuineIsObject(cfg: Config, adm: Admission)
    requires Genuine(cfg, adm)
    ensures adm.msg.payload.value.Obj?
  {
    ParseIffPublished(adm.msg.topic, adm.m.transformerId);
  }

  /** In every run each raw row has a silver row whose columns are those of an admitted message. */
  lemma SilverShowsMessage(cfg: Config, run: seq<Label>, k: string) returns (adm: Admission)
    requires k in TablesOf(Exec(cfg, Init(EMPTY_TABLES), run)).raw
    ensures var s := Exec(cfg, Init(EMPTY_TABLES), run);
            var silver := SilverTable(cfg.db.clock, TablesOf(s).raw);
            && adm in s.ever && DedupKey(adm.m) == k && k in silver
            && ShowsMessage(silver[k], TablesOf(s).raw[k], adm.m)
  {
    hide Exec, ShowsMessage, Reached, Genuine, Extract;
    var s := Exec(cfg, Init(EMPTY_TABLES), run);
    ReachedAfter(cfg, run);
    ReachedIsGenuine(cfg, s);
    SilverDropsNothing(cfg, run);
    adm := CapturedIsFaithful(cfg, s, k);
    GenuineIsObject(cfg, adm);
    GenuineReads(cfg, adm);
    ExtractShowsMessage(cfg.db.clock, TablesOf(s).raw[k], adm.m);
  }

  lemma GenuineReads(cfg: Config, adm: Admission)
    requires Genuine(cfg, adm)
    ensures DecodeMeasurement(PayloadOf(adm.msg)) == Some(adm.m) && PayloadOf(adm.msg) == adm.msg.payload.value
  {
  }

  // ---- measurements against silver ----

  /** The silver row of the measurement's transformer and second. */
  ghost predicate SameSample(cfg: Config, t: Tables, key: (string, Instant), id: string)
  {
    var silver := SilverTable(cfg.db.clock, t.raw);
    && id in silver
    && silver[id].transformerId == key.0
    && silver[id].payloadTransformerId == Some(key.0)
    && silver[id].ts == Some(WholeSecond(key.1))
  }

  /** And of the state the measurement stores. */
  ghost predicate AgreesWithSilver(cfg: Config, t: Tables, key: (string, Instant), id: string)
    requires key in t.meas
  {
    SameSample(cfg, t, key, id) && StateRecomputed(SilverTable(cfg.db.clock, t.raw)[id]) == t.meas[key].state
  }

  /** A measurement's silver row: same sample, and the state implied by the payload captured under its key. */
  lemma SilverRowOf(cfg: Config, s: State, key: (string, Instant)) returns (adm: Admission, other: Admission)
    requires LawfulClock(cfg.db.clock) && PlainIds(cfg) && Reached(cfg, s) && key in TablesOf(s).meas
    ensures adm in s.ever && other in s.ever && DedupKey(other.m) == DedupKey(adm.m)
    ensures SameSample(cfg, TablesOf(s), key, DedupKey(adm.m))
    ensures ChecksPass(RowOf(Normalize(adm.m)))
    ensures Normalize(other.m).state == Normalize(adm.m).state ==> AgreesWithSilver(cfg, TablesOf(s), key, DedupKey(adm.m))
  {
    hide SilverTable, StateRecomputed, ChecksPass, Faithful;
    ReachedIsFaithful(cfg, s);
    var i;
    adm, i := MeasurementSource(cfg, s, key);
    other := SourceOfRow(cfg, s, DedupKey(adm.m));
    assert Genuine(cfg, adm) && Genuine(cfg, other);
    SameKeySameSource(cfg, adm, other);
  }

  /** In every run, restarts and failures included, each measurement has a silver row of its transformer and second. */
  lemma MeasurementHasSilverRow(cfg: Config, run: seq<Label>, key: (string, Instant)) returns (id: string)
    requires Deployed(cfg) && key in TablesOf(Exec(cfg, Init(EMPTY_TABLES), run)).meas
    ensures SameSample(cfg, TablesOf(Exec(cfg, Init(EMPTY_TABLES), run)), key, id)
  {
    hide SameSample, Exec, Reached;
    ReachedAfter(cfg, run);
    var adm, _ := SilverRowOf(cfg, Exec(cfg, Init(EMPTY_TABLES), run), key);
    id := DedupKey(adm.m);
  }

  ghost predicate AllAgree(cfg: Config, t: Tables)
  {
    forall key :: key in t.meas ==> exists id :: AgreesWithSilver(cfg, t, key, id)
  }

  /** A backed measurement agrees with the silver row of the payload that backs it. */
  lemma BackedAgrees(cfg: Config, t: Tables, key: (string, Instant), id: string)
    requires LawfulClock(cfg.db.clock) && key in t.meas && BackedBy(cfg.db, t, key, id) && Kept(t.raw, id)
    requires DecodeMeasurement(t.raw[id].payload).value.transformerId != ""
    ensures AgreesWithSilver(cfg, t, key, id)
  {
    var payload := t.raw[id].payload;
    ExtractedIsDecoded(payload);
    SqlAgreesWithService(NumberOf(Field(payload, WindingTemperature)), NumberOf(Field(payload, OilTemperature)),
                         NumberOf(Field(payload, LoadPercent)));
  }

  /**
   * Every measurement row that is backed has a silver row of the same transformer
   * and second, whose recomputed state is the stored one, missing readings included.
   */
  lemma MeasurementsAgreeWithSilver(cfg: Config, run: seq<Label>, key: (string, Instant), id: string)
    requires LawfulClock(cfg.db.clock)
    requires var t := TablesOf(Exec(cfg, Init(EMPTY_TABLES), run)); key in t.meas && BackedBy(cfg.db, t, key, id)
    ensures AgreesWithSilver(cfg, TablesOf(Exec(cfg, Init(EMPTY_TABLES), run)), key, id)
  {
    var t := TablesOf(Exec(cfg, Init(EMPTY_TABLES), run));
    SilverDropsNothing(cfg, run);
    ReachedAfter(cfg, run);
    var adm := CapturedIsFaithful(cfg, Exec(cfg, Init(EMPTY_TABLES), run), id);
    assert Genuine(cfg, adm);
    ParseIffPublished(adm.msg.topic, adm.m.transformerId);
    BackedAgrees(cfg, t, key, id);
  }

  /** In one process from an empty store the three stores agree, whatever fails. */
  lemma OneProcessAgrees(cfg: Config, run: seq<Label>)
    requires LawfulClock(cfg.db.clock) && forall l :: l in run ==> !l.Restart?
    ensures AllAgree(cfg, TablesOf(Exec(cfg, Init(EMPTY_TABLES), run)))
  {
    hide BackedBy, AgreesWithSilver, Exec;
    var t := TablesOf(Exec(cfg, Init(EMPTY_TABLES), run));
    OneProcessIsBacked(cfg, run);
    forall key | key in t.meas ensures exists id :: AgreesWithSilver(cfg, t, key, id) {
      var id :| BackedBy(cfg.db, t, key, id);
      MeasurementsAgreeWithSilver(cfg, run, key, id);
    }
  }

  // ---- over restarts: exactly when the states agree ----

  ghost predicate StatesAgree(a: Measurement, b: Measurement)
  {
    DedupKey(a) == DedupKey(b) && ChecksPass(RowOf(Normalize(b))) ==> Normalize(a).state == Normalize(b).state
  }

  /** Messages under one key imply one state, as far as the table would take them. */
  ghost predicate StateCoherent(admissions: iset<Admission>)
  {
    forall a, b :: a in admissions && b in admissions ==> StatesAgree(a.m, b.m)
  }

  /** Whatever the run over the universe, every measurement agrees with a silver row. */
  ghost predicate AlwaysAgrees(cfg: Config, universe: iset<Message>)
  {
    forall run :: Over(run, universe) ==> AllAgree(cfg, TablesOf(Exec(cfg, Init(EMPTY_TABLES), run)))
  }

  lemma CoherentKeyAgrees(cfg: Config, s: State, admissions: iset<Admission>, key: (string, Instant))
    requires LawfulClock(cfg.db.clock) && PlainIds(cfg) && Reached(cfg, s) && key in TablesOf(s).meas
    requires StateCoherent(admissions) && forall adm :: adm in s.ever ==> adm in admissions
    ensures exists id :: AgreesWithSilver(cfg, TablesOf(s), key, id)
  {
    hide SameSample, AgreesWithSilver, ChecksPass, Faithful, Reached;
    var adm, other := SilverRowOf(cfg, s, key);
    assert StatesAgree(other.m, adm.m);
  }

  lemma CoherentAgrees(cfg: Config, run: seq<Label>, universe: iset<Message>)
    requires Deployed(cfg) && StateCoherent(Potential(cfg, universe)) && Over(run, universe)
    ensures AllAgree(cfg, TablesOf(Exec(cfg, Init(EMPTY_TABLES), run)))
  {
    hide Exec, AgreesWithSilver, StateCoherent, Reached;
    ReachedAfter(cfg, run);
    ReachedIsGenuine(cfg, Exec(cfg, Init(EMPTY_TABLES), run));
    OnlyFromUniverse(cfg, Init(EMPTY_TABLES), run, universe);
    var s := Exec(cfg, Init(EMPTY_TABLES), run);
    forall key | key in TablesOf(s).meas ensures exists id :: AgreesWithSilver(cfg, TablesOf(s), key, id) {
      CoherentKeyAgrees(cfg, s, Potential(cfg, universe), key);
    }
  }

  /** Two messages under one key that imply different states: the interrupted run separates the stores. */
  lemma IncoherentDisagrees(cfg: Config, a: Admission, b: Admission) returns (run: seq<Label>)
    requires Deployed(cfg) && Genuine(cfg, a) && Genuine(cfg, b) && !StatesAgree(a.m, b.m)
    ensures forall l :: l in run && l.Deliver? ==> l.msg == a.msg || l.msg == b.msg
    ensures !AllAgree(cfg, TablesOf(Exec(cfg, Init(EMPTY_TABLES), run)))
  {
    hide Exec, ChecksPass, ClassifyState;
    run := InterruptedTables(cfg, a, b);
    var s := Exec(cfg, Init(EMPTY_TABLES), run);
    var t, k := TablesOf(s), DedupKey(a.m);
    var key := (b.m.transformerId, cfg.db.clock.parse(b.m.timestamp).value);
    assert key in t.meas && t.meas[key].state == Normalize(b.m).state;
    StateOfPayload(t.raw[k].payload, a.m);
    forall id ensures !AgreesWithSilver(cfg, t, key, id) {
      if id in SilverTable(cfg.db.clock, t.raw) {
        assert id in t.raw.Keys;
        assert id == k;
      }
    }
  }

  lemma StateOfPayload(payload: Json, m: Measurement)
    requires DecodeMeasurement(payload) == Some(m)
    ensures ClassifySql(NumberOf(Field(payload, WindingTemperature)), NumberOf(Field(payload, OilTemperature)),
                        NumberOf(Field(payload, LoadPercent))) == Normalize(m).state
  {
    ExtractedIsDecoded(payload);
    SqlAgreesWithService(NumberOf(Field(payload, WindingTemperature)), NumberOf(Field(payload, OilTemperature)),
                         NumberOf(Field(payload, LoadPercent)));
  }

  /**
   * Over all runs, restarts and failures included, every measurement has a silver
   * row of its transformer, second and state if and only if messages that share a
   * dedup key imply one state.
   */
  lemma AgreesExactlyWhenCoherent(cfg: Config, universe: iset<Message>)
    requires Deployed(cfg)
    ensures AlwaysAgrees(cfg, universe) <==> StateCoherent(Potential(cfg, universe))
  {
    hide AllAgree, StatesAgree, Exec;
    if StateCoherent(Potential(cfg, universe)) {
      forall run | Over(run, universe) ensures AllAgree(cfg, TablesOf(Exec(cfg, Init(EMPTY_TABLES), run))) {
        CoherentAgrees(cfg, run, universe);
      }
    } else {
      var a, b :| a in Potential(cfg, universe) && b in Potential(cfg, universe) && !StatesAgree(a.m, b.m);
      var run := IncoherentDisagrees(cfg, a, b);
      assert Over(run, universe);
    }
  }

  // ---- the data tests of the silver models ----

  ghost predicate SameSilverKey(silver: map<string, SilverRow>, a: string, b: string)
  {
    && a in silver && b in silver
    && silver[a].transformerId == silver[b].transformerId && silver[a].ts == silver[b].ts
  }

  ghost predicate UniqueSilverKey(silver: map<string, SilverRow>)
  {
    forall a, b :: SameSilverKey(silver, a, b) ==> a == b
  }

  function SecondKey(cfg: Config, adm: Admission): (string, Instant)
  {
    (adm.m.transformerId, WholeSecond(InstantOf(cfg, adm)))
  }

  /** No transformer has sent two of the samples within one second. */
  ghost predicate OnePerSecond(cfg: Config, admissions: set<Admission>)
  {
    forall a, b :: a in admissions && b in admissions && SecondKey(cfg, a) == SecondKey(cfg, b) ==> a == b
  }

  /** The admitted messages that the raw rows capture. */
  ghost function Captured(cfg: Config, s: State): set<Admission>
  {
    set adm | adm in s.ever && RawExact(cfg, TablesOf(s), adm)
  }

  /** Two captured messages under one key are one message. */
  lemma CapturedOnce(cfg: Config, s: State, a: Admission, b: Admission)
    requires a in Captured(cfg, s) && b in Captured(cfg, s) && Genuine(cfg, a) && Genuine(cfg, b)
    requires DedupKey(a.m) == DedupKey(b.m)
    ensures a == b
  {
    assert TimelessRow(cfg, a) == TimelessRow(cfg, b);
  }

  lemma OnePerSecondIsUnique(cfg: Config, s: State)
    requires LawfulClock(cfg.db.clock) && Reached(cfg, s) && OnePerSecond(cfg, Captured(cfg, s))
    ensures UniqueSilverKey(SilverTable(cfg.db.clock, TablesOf(s).raw))
  {
    hide SilverTable, StateRecomputed, Faithful, RawExact, Reached;
    ReachedIsFaithful(cfg, s);
    var silver := SilverTable(cfg.db.clock, TablesOf(s).raw);
    forall a, b | SameSilverKey(silver, a, b) ensures a == b {
      SilverRowsAreRaw(cfg, s, a);
      SilverRowsAreRaw(cfg, s, b);
      var x := SourceOfRow(cfg, s, a);
      var y := SourceOfRow(cfg, s, b);
      assert SecondKey(cfg, x) == SecondKey(cfg, y);
    }
  }

  lemma UniqueIsOnePerSecond(cfg: Config, s: State)
    requires LawfulClock(cfg.db.clock) && Reached(cfg, s)
    requires UniqueSilverKey(SilverTable(cfg.db.clock, TablesOf(s).raw))
    ensures OnePerSecond(cfg, Captured(cfg, s))
  {
    hide SilverTable, StateRecomputed, Faithful, RawExact;
    ReachedIsFaithful(cfg, s);
    var silver := SilverTable(cfg.db.clock, TablesOf(s).raw);
    forall x, y | x in Captured(cfg, s) && y in Captured(cfg, s) && SecondKey(cfg, x) == SecondKey(cfg, y) ensures x == y {
      SilverOfAdmitted(cfg, s, x);
      SilverOfAdmitted(cfg, s, y);
      assert SameSilverKey(silver, DedupKey(x.m), DedupKey(y.m));
      CapturedOnce(cfg, s, x, y);
    }
  }

  /**
   * In every run, caught up or not, (transformer, ts) is unique in silver if and
   * only if no two captured messages of a transformer fall within one second.
   */
  lemma SilverKeyUniqueExactly(cfg: Config, run: seq<Label>)
    requires LawfulClock(cfg.db.clock)
    ensures var s := Exec(cfg, Init(EMPTY_TABLES), run);
            UniqueSilverKey(SilverTable(cfg.db.clock, TablesOf(s).raw)) <==> OnePerSecond(cfg, Captured(cfg, s))
  {
    hide Exec, SilverTable, Captured, OnePerSecond, UniqueSilverKey, Reached;
    var s := Exec(cfg, Init(EMPTY_TABLES), run);
    ReachedAfter(cfg, run);
    if OnePerSecond(cfg, Captured(cfg, s)) {
      OnePerSecondIsUnique(cfg, s);
    }
    if UniqueSilverKey(SilverTable(cfg.db.clock, TablesOf(s).raw)) {
      UniqueIsOnePerSecond(cfg, s);
    }
  }

  lemma SilverRowsAreRaw(cfg: Config, s: State, k: string)
    requires k in SilverTable(cfg.db.clock, TablesOf(s).raw)
    ensures k in TablesOf(s).raw
  {
  }

  /** With canonical second-precision timestamps the key is unique in every run. */
  lemma CanonicalKeyIsUnique(cfg: Config, run: seq<Label>)
    requires LawfulClock(cfg.db.clock)
    requires forall adm :: adm in Exec(cfg, Init(EMPTY_TABLES), run).ever ==> Canonical(cfg.db.clock, adm.m.timestamp)
    ensures UniqueSilverKey(SilverTable(cfg.db.clock, TablesOf(Exec(cfg, Init(EMPTY_TABLES), run)).raw))
  {
    hide Exec, UniqueSilverKey;
    var s := Exec(cfg, Init(EMPTY_TABLES), run);
    SilverKeyUniqueExactly(cfg, run);
    ReachedAfter(cfg, run);
    forall a, b | a in Captured(cfg, s) && b in Captured(cfg, s) && SecondKey(cfg, a) == SecondKey(cfg, b) ensures a == b {
      assert Canonical(cfg.db.clock, a.m.timestamp) && Canonical(cfg.db.clock, b.m.timestamp);
      assert a.m.timestamp == b.m.timestamp;
      CapturedOnce(cfg, s, a, b);
    }
  }

  /** Once caught up, every admitted message is captured, so the condition is on all of them. */
  lemma CaughtUpKeyUniqueExactly(cfg: Config, run: seq<Label>)
    requires LawfulClock(cfg.db.clock)
    requires var s := Exec(cfg, Init(EMPTY_TABLES), run);
             Quiescent(s) && CaughtUp(s) && PayloadPerKey(s.ever)
    ensures var s := Exec(cfg, Init(EMPTY_TABLES), run);
            UniqueSilverKey(SilverTable(cfg.db.clock, TablesOf(s).raw)) <==> OnePerSecond(cfg, s.ever)
  {
    hide Exec, UniqueSilverKey, SilverTable;
    var s := Exec(cfg, Init(EMPTY_TABLES), run);
    CaughtUpIsExact(cfg, run);
    SilverKeyUniqueExactly(cfg, run);
    assert Captured(cfg, s) == s.ever;
  }

  /**
   * In every run, a silver row passes the state test of the silver models
   * exactly when the message it captures carried the state its own readings imply.
   */
  lemma StateTestExactly(cfg: Config, run: seq<Label>, k: string) returns (adm: Admission)
    requires LawfulClock(cfg.db.clock)
    requires k in TablesOf(Exec(cfg, Init(EMPTY_TABLES), run)).raw
    ensures var s := Exec(cfg, Init(EMPTY_TABLES), run);
            var silver := SilverTable(cfg.db.clock, TablesOf(s).raw);
            && adm in s.ever && DedupKey(adm.m) == k && k in silver
            && (silver[k].state == Some(StateRecomputed(silver[k])) <==> adm.m == Normalize(adm.m))
  {
    ReachedAfter(cfg, run);
    RawRowsFaithful(cfg, run);
    adm := SourceOfRow(cfg, Exec(cfg, Init(EMPTY_TABLES), run), k);
  }
}
