// The two bronze sinks: the relational tables with their constraints and
// first-write-wins inserts, and the laws of inserting a sequence of writes.
module Storage {
  import opened Wrappers
  import opened Measurement
  import opened Rounding
  import opened Json
  import Validation

  datatype RawRow = RawRow(
    transformerId: string,
    schemaVersion: int,
    topic: string,
    source: string,
    ingestedAt: Instant,
    payload: Json)

  datatype MeasurementRow = MeasurementRow(
    load: real,
    ambient: real,
    oil: real,
    winding: real,
    oilLevel: real,
    current: real,
    voltage: real,
    state: string)

  datatype Tables = Tables(
    raw: map<string, RawRow>,
    meas: map<(string, Instant), MeasurementRow>)

  const EMPTY := Tables(map[], map[])

  /** What the statements depend on besides the two tables. */
  datatype Database = Database(clock: Clock, transformers: set<string>)

  datatype StoreError = BadInstant | CheckViolated | ForeignKeyViolated | ConnectionLost

  /** The columns keep two decimals. */
  function RowOf(m: Measurement): MeasurementRow
  {
    MeasurementRow(Round2(m.load), Round2(m.ambient), Round2(m.oil), Round2(m.winding),
                   Round2(m.oilLevel), Round2(m.current), Round2(m.voltage), m.state)
  }

  /** Each column shows the reading of its own name. */
  predicate ShowsReadings(r: MeasurementRow, m: Measurement)
  {
    && Shows(r.load, m.load)
    && Shows(r.ambient, m.ambient)
    && Shows(r.oil, m.oil)
    && Shows(r.winding, m.winding)
    && Shows(r.oilLevel, m.oilLevel)
    && Shows(r.current, m.current)
    && Shows(r.voltage, m.voltage)
  }

  lemma RowShows(m: Measurement)
    ensures ShowsReadings(RowOf(m), m) && RowOf(m).state == m.state
  {
    hide Shows, Round2;
    Round2Shows(m.load);
    Round2Shows(m.ambient);
    Round2Shows(m.oil);
    Round2Shows(m.winding);
    Round2Shows(m.oilLevel);
    Round2Shows(m.current);
    Round2Shows(m.voltage);
  }

  /** Each column of the raw row holds the record's field of its own name, the receipt as an instant. */
  predicate FiledFrom(c: Clock, row: RawRow, rec: RawRecord)
  {
    && row.transformerId == rec.transformerId
    && row.schemaVersion == rec.schemaVersion
    && row.topic == rec.topic
    && row.source == rec.source
    && Some(row.ingestedAt) == c.parse(rec.receivedAt)
    && row.payload == rec.payload
  }

  /** Column precisions and CHECK constraints of the measurements table. */
  predicate ChecksPass(r: MeasurementRow)
  {
    && 0.0 <= r.load <= 200.0
    && -20.0 <= r.ambient <= 55.0
    && -20.0 <= r.oil <= 150.0
    && -20.0 <= r.winding <= 200.0
    && 0.0 <= r.oilLevel <= 100.0
    && 0.0 <= r.current < 100_000_000.0
    && 0.0 < r.voltage < 1_000_000.0
    && KnownState(r.state)
  }

  function InsertRaw(db: Database, t: Tables, rec: RawRecord): Result<Tables, StoreError>
  {
    if db.clock.parse(rec.receivedAt).None? then Err(BadInstant)
    else if rec.id in t.raw then Ok(t)
    else if rec.transformerId !in db.transformers then Err(ForeignKeyViolated)
    else
      var row := RawRow(rec.transformerId, rec.schemaVersion, rec.topic, rec.source,
                        db.clock.parse(rec.receivedAt).value, rec.payload);
      Ok(t.(raw := t.raw[rec.id := row]))
  }

  function InsertMeasurement(db: Database, t: Tables, m: Measurement): Result<Tables, StoreError>
  {
    if db.clock.parse(m.timestamp).None? then Err(BadInstant)
    else if !ChecksPass(RowOf(m)) then Err(CheckViolated)
    else
      var key := (m.transformerId, db.clock.parse(m.timestamp).value);
      if key in t.meas then Ok(t)
      else if m.transformerId !in db.transformers then Err(ForeignKeyViolated)
      else Ok(t.(meas := t.meas[key := RowOf(m)]))
  }

  /** One write of the ingestion store interface. */
  datatype Write = RawWrite(rec: RawRecord) | MeasWrite(m: Measurement)

  function Insert(db: Database, t: Tables, w: Write): Result<Tables, StoreError>
  {
    match w
    case RawWrite(rec) => InsertRaw(db, t, rec)
    case MeasWrite(m) => InsertMeasurement(db, t, m)
  }

  /** A refused statement leaves the tables alone. */
  function Attempt(db: Database, t: Tables, w: Write): Tables
  {
    var r := Insert(db, t, w);
    if r.Ok? then r.value else t
  }

  function InsertAll(db: Database, t: Tables, ws: seq<Write>): Tables
  {
    if ws == [] then t
    else Attempt(db, InsertAll(db, t, ws[..|ws| - 1]), ws[|ws| - 1])
  }

  /** None of the writes is refused when they are inserted in order. */
  ghost predicate AllStored(db: Database, t: Tables, ws: seq<Write>)
  {
    forall i :: 0 <= i < |ws| ==> Insert(db, InsertAll(db, t, ws[..i]), ws[i]).Ok?
  }

  /** How a statement meets the connection. */
  datatype Fault = Healthy | LostBefore | LostAfter

  datatype Reply = Reply(tables: Tables, error: Option<StoreError>)

  function Execute(db: Database, t: Tables, w: Write, fault: Fault): Reply
  {
    if fault == LostBefore then Reply(t, Some(ConnectionLost))
    else
      match Insert(db, t, w)
      case Err(e) => Reply(t, Some(e))
      case Ok(t') => Reply(t', if fault == LostAfter then Some(ConnectionLost) else None)
  }

  // ---- first write wins ----

  ghost predicate Extends(t: Tables, t': Tables)
  {
    && (forall k :: k in t.raw ==> k in t'.raw && t'.raw[k] == t.raw[k])
    && (forall k :: k in t.meas ==> k in t'.meas && t'.meas[k] == t.meas[k])
  }

  lemma {:induction false} InsertAllExtends(db: Database, t: Tables, ws: seq<Write>)
    ensures Extends(t, InsertAll(db, t, ws))
  {
    if ws != [] {
      InsertAllExtends(db, t, ws[..|ws| - 1]);
    }
  }

  lemma {:induction false} InsertAllConcat(db: Database, t: Tables, a: seq<Write>, b: seq<Write>)
    ensures InsertAll(db, t, a + b) == InsertAll(db, InsertAll(db, t, a), b)
  {
    if b == [] {
      assert a + b == a;
    } else {
      InsertAllConcat(db, t, a, b[..|b| - 1]);
      assert (a + b)[..|a + b| - 1] == a + b[..|b| - 1];
    }
  }

  /** The row is there: the write would succeed and change nothing. */
  ghost predicate Holds(db: Database, t: Tables, w: Write)
  {
    Insert(db, t, w) == Ok(t)
  }

  lemma InsertedHolds(db: Database, t: Tables, w: Write)
    requires Insert(db, t, w).Ok?
    ensures Holds(db, Insert(db, t, w).value, w)
  {
  }

  lemma HoldsStays(db: Database, t: Tables, w: Write, x: Write)
    requires Holds(db, t, w)
    ensures Holds(db, Attempt(db, t, x), w)
  {
    var u := Attempt(db, t, x);
    match w {
      case RawWrite(rec) =>
        assert rec.id in InsertRaw(db, t, rec).value.raw;
        assert rec.id in u.raw;
      case MeasWrite(m) =>
        var key := (m.transformerId, db.clock.parse(m.timestamp).value);
        assert key in InsertMeasurement(db, t, m).value.meas;
        assert key in u.meas;
    }
  }

  /**
   * A sample the validator admits is refused by the measurements table in four
   * cases only: the half-degree tolerance takes the winding below the column's
   * bound, the voltage rounds to nothing, or voltage or current overflow.
   */
  lemma AdmittedButRefused(m: Measurement)
    requires Validation.InRanges(m) && Validation.WindingClearsOil(m) && KnownState(m.state)
    ensures ChecksPass(RowOf(m)) <==>
            m.winding > -20.005 && 0.005 <= m.voltage < 999_999.995 && m.current < 99_999_999.995
  {
    Round2Within(m.load, 0, 20000);
    Round2Within(m.ambient, -2000, 5500);
    Round2Within(m.oil, -2000, 15000);
    Round2Within(m.oilLevel, 0, 10000);
    RoundAgainst(m.winding * 100.0, 20000);
    RoundAgainst(m.current * 100.0, 0);
    RoundAgainst(-m.winding * 100.0, 2000);
    RoundAgainst(m.voltage * 100.0, 1);
    RoundAgainst(m.voltage * 100.0, 100_000_000);
    RoundAgainst(m.current * 100.0, 10_000_000_000);
  }

  /** A sample the validator admits and the table refuses: the winding is within half a degree of the coldest oil. */
  lemma AdmittedYetRefused() returns (m: Measurement)
    ensures Validation.InRanges(m) && Validation.WindingClearsOil(m) && KnownState(m.state) && !ChecksPass(RowOf(m))
  {
    m := Measurement(SCHEMA_VERSION, "TR-001", "", 50.0, -20.0, -20.0, -20.4, 95.0, 100.0, 110.0, STATE_NORMAL);
    AdmittedButRefused(m);
  }

  lemma AllStoredAppend(db: Database, t: Tables, ws: seq<Write>, w: Write)
    requires AllStored(db, t, ws) && Insert(db, InsertAll(db, t, ws), w).Ok?
    ensures AllStored(db, t, ws + [w])
    ensures InsertAll(db, t, ws + [w]) == Attempt(db, InsertAll(db, t, ws), w)
  {
    assert (ws + [w])[..|ws|] == ws;
    forall i | 0 <= i < |ws + [w]| ensures Insert(db, InsertAll(db, t, (ws + [w])[..i]), (ws + [w])[i]).Ok? {
      if i < |ws| {
        assert (ws + [w])[..i] == ws[..i];
      }
    }
  }
}
